/**
 * What every field shares (src/fields/Field.ts): a `configured` flag that
 * starts false and only ever becomes true, and a `required` check. Without
 * inheritance, each field class carries its own `configured` variable and
 * uses these definitions.
 */
module FieldBase {
  import opened Wrappers
  import opened Failures

  /** `Field.validate`: an error naming the field class exactly when it is required and not configured. */
  function RequiredCheck(kind: FieldKind, required: bool, configured: bool): (r: Option<Failure>)
    ensures r.Some? <==> required && !configured
    ensures r.Some? ==> r.value == ConfigurationMissing(kind)
  {
    if required && !configured then Some(ConfigurationMissing(kind)) else None
  }
}
