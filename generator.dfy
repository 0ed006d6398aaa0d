/**
 * The Amazon States Language encoder (src/generators/StepFunctionsGenerator.ts)
 * over snapshots of the model. `getMethodTarget`'s dispatch on class names
 * (src/generators/AbstractGenerator.ts) is a match over the state and field
 * variants; every `Object.assign` is `Assign` and every `data[key] = v` is `Put`.
 */
module Generator {
  import opened Wrappers
  import opened Json
  import opened Failures
  import opened NextFields
  import opened PathFields
  import opened ResultPathFields
  import opened ResultFields
  import opened RetryFields
  import opened CatchFields
  import opened ChoiceRules
  import opened StateValues
  import opened StateMachines
  import opened ErrorNames

  /** An object literal entry whose value may be `undefined`, which leaves the key out. */
  function Optional(key: string, v: Option<Json>): seq<Member>
  {
    if v.Some? then [(key, v.value)] else []
  }

  function TextOf(s: Option<string>): Option<Json>
  {
    if s.Some? then Some(JStr(s.value)) else None
  }

  function NumberOf(n: Option<int>): Option<Json>
  {
    if n.Some? then Some(JNum(n.value)) else None
  }

  /** Every key of an object is among `allowed`. */
  predicate KeysAmong(ms: seq<Member>, allowed: set<string>)
  {
    forall i :: 0 <= i < |ms| ==> ms[i].0 in allowed
  }

  /** A key outside the allowed set is absent. */
  lemma KeyOutside(ms: seq<Member>, allowed: set<string>, key: string)
    requires KeysAmong(ms, allowed) && key !in allowed
    ensures Lookup(ms, key) == None
  {
    AbsentKey(ms, key);
  }

  // ----- fields -----

  /**
   * `generateNextField`, where the code's `nextStateName()` is read as `get()`:
   * nothing for a locked field, `End` for a terminal one, otherwise `Next`
   * (left out while no target is stored).
   */
  function GenerateNext(n: NextValue): (ms: seq<Member>)
    ensures DistinctKeys(ms) && KeysAmong(ms, {"End", "Next"})
    ensures Lookup(ms, "End") == (if !n.locked && n.isEnd then Some(JBool(true)) else None)
    ensures Lookup(ms, "Next") == (if !n.locked && !n.isEnd then TextOf(n.target) else None)
  {
    if n.locked then []
    else if n.isEnd then [("End", JBool(true))]
    else Optional("Next", TextOf(n.target))
  }

  /** `generatePathField`: each path is written only when it is a non-empty string. */
  function GeneratePath(p: PathValue): (ms: seq<Member>)
    ensures DistinctKeys(ms) && KeysAmong(ms, {"InputPath", "OutputPath"})
    ensures Lookup(ms, "InputPath") == (if PresentText(p.input) then TextOf(p.input) else None)
    ensures Lookup(ms, "OutputPath") == (if PresentText(p.output) then TextOf(p.output) else None)
  {
    (if PresentText(p.input) then [("InputPath", JStr(p.input.value))] else [])
    + (if PresentText(p.output) then [("OutputPath", JStr(p.output.value))] else [])
  }

  /** `get()` of a result-path field as a JSON value: `null` when unset or discarded. */
  function ResultPathJson(v: ResultPathValue): Json
  {
    if GetPath(v).Some? then JStr(GetPath(v).value) else JNull
  }

  function GenerateResultPath(v: ResultPathValue): seq<Member>
  {
    [("ResultPath", ResultPathJson(v))]
  }

  function GenerateResult(v: ResultValue): seq<Member>
  {
    [("Result", v.result)]
  }

  /** `Object.assign(data, {key: v})` when the attribute is not null. */
  function PutSet(ms: seq<Member>, key: string, v: Option<int>): (r: seq<Member>)
    ensures Lookup(r, key) == if v.Some? then NumberOf(v) else Lookup(ms, key)
  {
    if v.Some? then Put(ms, key, JNum(v.value)) else ms
  }

  lemma PutSetOther(ms: seq<Member>, key: string, v: Option<int>, other: string)
    requires other != key
    ensures Lookup(PutSet(ms, key, v), other) == Lookup(ms, other)
  {
    if v.Some? {
      LookupPutOther(ms, key, JNum(v.value), other);
    }
  }

  /**
   * The `map` callback of `generateRetryField`, given the encoded
   * `ErrorEquals` list. MaxAttempts is assigned twice, before and after
   * BackoffRate; each attribute appears exactly when it is not null.
   */
  function RetrierMembers(errorEquals: seq<Json>, r: RetrierValue): (ms: seq<Member>)
    ensures Lookup(ms, "ErrorEquals") == Some(JArr(errorEquals))
    ensures Lookup(ms, "MaxAttempts") == NumberOf(r.maxAttempts)
    ensures Lookup(ms, "BackoffRate") == NumberOf(r.backoffRate)
    ensures Lookup(ms, "IntervalSeconds") == NumberOf(r.interval)
  {
    var d0 := [("ErrorEquals", JArr(errorEquals))];
    var d1 := PutSet(d0, "MaxAttempts", r.maxAttempts);
    var d2 := PutSet(d1, "BackoffRate", r.backoffRate);
    var d3 := PutSet(d2, "MaxAttempts", r.maxAttempts);
    var d4 := PutSet(d3, "IntervalSeconds", r.interval);
    RetrierLookups(errorEquals, r, d0, d1, d2, d3, d4);
    d4
  }

  lemma RetrierLookups(errorEquals: seq<Json>, r: RetrierValue, d0: seq<Member>, d1: seq<Member>,
                       d2: seq<Member>, d3: seq<Member>, d4: seq<Member>)
    requires d0 == [("ErrorEquals", JArr(errorEquals))]
    requires d1 == PutSet(d0, "MaxAttempts", r.maxAttempts)
    requires d2 == PutSet(d1, "BackoffRate", r.backoffRate)
    requires d3 == PutSet(d2, "MaxAttempts", r.maxAttempts)
    requires d4 == PutSet(d3, "IntervalSeconds", r.interval)
    ensures Lookup(d4, "ErrorEquals") == Some(JArr(errorEquals))
    ensures Lookup(d4, "MaxAttempts") == NumberOf(r.maxAttempts)
    ensures Lookup(d4, "BackoffRate") == NumberOf(r.backoffRate)
    ensures Lookup(d4, "IntervalSeconds") == NumberOf(r.interval)
  {
    AbsentKey(d0, "MaxAttempts");
    AbsentKey(d0, "BackoffRate");
    AbsentKey(d0, "IntervalSeconds");
    PutSetOther(d0, "MaxAttempts", r.maxAttempts, "ErrorEquals");
    PutSetOther(d0, "MaxAttempts", r.maxAttempts, "BackoffRate");
    PutSetOther(d0, "MaxAttempts", r.maxAttempts, "IntervalSeconds");
    PutSetOther(d1, "BackoffRate", r.backoffRate, "ErrorEquals");
    PutSetOther(d1, "BackoffRate", r.backoffRate, "MaxAttempts");
    PutSetOther(d1, "BackoffRate", r.backoffRate, "IntervalSeconds");
    PutSetOther(d2, "MaxAttempts", r.maxAttempts, "ErrorEquals");
    PutSetOther(d2, "MaxAttempts", r.maxAttempts, "BackoffRate");
    PutSetOther(d2, "MaxAttempts", r.maxAttempts, "IntervalSeconds");
    PutSetOther(d3, "IntervalSeconds", r.interval, "ErrorEquals");
    PutSetOther(d3, "IntervalSeconds", r.interval, "MaxAttempts");
    PutSetOther(d3, "IntervalSeconds", r.interval, "BackoffRate");
  }

  /** The codes as the generator writes them: `getErrorTypes()` yields the enum's numbers. */
  function OrdinalCodes(cs: seq<ErrorCode>): (js: seq<Json>)
    ensures |js| == |cs| && forall i :: 0 <= i < |cs| ==> js[i] == JNum(Ordinal(cs[i]))
  {
    seq(|cs|, i requires 0 <= i < |cs| => JNum(Ordinal(cs[i])))
  }

  /** The codes under their `States.*` names, as the Retry hydrator's `extract` writes them. */
  function NamedCodes(cs: seq<ErrorCode>): (js: seq<Json>)
    ensures |js| == |cs| && forall i :: 0 <= i < |cs| ==> js[i] == JStr(WireName(cs[i]))
  {
    seq(|cs|, i requires 0 <= i < |cs| => JStr(WireName(cs[i])))
  }

  /** One retrier as the code writes it: numeric error codes. */
  function GenerateRetrierAsWritten(r: RetrierValue): seq<Member>
  {
    RetrierMembers(OrdinalCodes(r.errorTypes), r)
  }

  /** One retrier with its codes under their wire names, as Amazon States Language requires. */
  function GenerateRetrier(r: RetrierValue): seq<Member>
  {
    RetrierMembers(NamedCodes(r.errorTypes), r)
  }

  /**
   * As written, a retrier's `ErrorEquals` holds numbers where a reader of the
   * document (the Retry hydrator's `findErrorCode` included) expects names.
   */
  lemma RetryCodesAsWrittenAreNumbers(r: RetrierValue)
    requires r.errorTypes != []
    ensures Lookup(GenerateRetrierAsWritten(r), "ErrorEquals") != Lookup(GenerateRetrier(r), "ErrorEquals")
    ensures CodeOf(Some(OrdinalCodes(r.errorTypes)[0])).Err?
    ensures CodeOf(Some(NamedCodes(r.errorTypes)[0])) == Ok(r.errorTypes[0])
  {
    assert OrdinalCodes(r.errorTypes)[0] != NamedCodes(r.errorTypes)[0];
    WireNameBijective(r.errorTypes[0], r.errorTypes[0]);
  }

  function GenerateRetry(v: RetryValue): seq<Member>
  {
    [("Retry", JArr(seq(|v.retriers|, i requires 0 <= i < |v.retriers| => JObj(GenerateRetrier(v.retriers[i])))))]
  }

  function Texts(ss: seq<string>): (js: seq<Json>)
    ensures |js| == |ss| && forall i :: 0 <= i < |ss| ==> js[i] == JStr(ss[i])
  {
    seq(|ss|, i requires 0 <= i < |ss| => JStr(ss[i]))
  }

  /**
   * The `map` callback of `generateCatchField`: the error names, the catcher's
   * Next or End, and its ResultPath only when that field is configured.
   */
  function GenerateCatcher(c: CatcherValue): (ms: seq<Member>)
    ensures Lookup(ms, "ErrorEquals") == Some(JArr(Texts(c.errors)))
    ensures Lookup(ms, "End") == Lookup(GenerateNext(c.next), "End")
    ensures Lookup(ms, "Next") == Lookup(GenerateNext(c.next), "Next")
    ensures Lookup(ms, "ResultPath") == if c.resultPath.configured then Some(ResultPathJson(c.resultPath)) else None
  {
    var d0 := [("ErrorEquals", JArr(Texts(c.errors)))];
    var d1 := Assign(d0, GenerateNext(c.next));
    var d2 := if c.resultPath.configured then Assign(d1, GenerateResultPath(c.resultPath)) else d1;
    CatcherLookups(c, d0, d1, d2);
    d2
  }

  lemma CatcherLookups(c: CatcherValue, d0: seq<Member>, d1: seq<Member>, d2: seq<Member>)
    requires d0 == [("ErrorEquals", JArr(Texts(c.errors)))]
    requires d1 == Assign(d0, GenerateNext(c.next))
    requires d2 == if c.resultPath.configured then Assign(d1, GenerateResultPath(c.resultPath)) else d1
    ensures Lookup(d2, "ErrorEquals") == Some(JArr(Texts(c.errors)))
    ensures Lookup(d2, "End") == Lookup(GenerateNext(c.next), "End")
    ensures Lookup(d2, "Next") == Lookup(GenerateNext(c.next), "Next")
    ensures Lookup(d2, "ResultPath") == if c.resultPath.configured then Some(ResultPathJson(c.resultPath)) else None
  {
    var next := GenerateNext(c.next);
    var rp := GenerateResultPath(c.resultPath);
    KeyOutside(next, {"End", "Next"}, "ErrorEquals");
    KeyOutside(next, {"End", "Next"}, "ResultPath");
    LookupAssign(d0, next, "ErrorEquals");
    LookupAssign(d0, next, "End");
    LookupAssign(d0, next, "Next");
    LookupAssign(d0, next, "ResultPath");
    if c.resultPath.configured {
      LookupAssign(d1, rp, "ErrorEquals");
      LookupAssign(d1, rp, "End");
      LookupAssign(d1, rp, "Next");
      LookupAssign(d1, rp, "ResultPath");
    }
  }

  /** The `map` over the catchers: one object per catcher, in order. */
  function CatchEntries(cs: seq<CatcherValue>): (es: seq<Json>)
    ensures |es| == |cs| && forall i :: 0 <= i < |cs| ==> es[i] == JObj(GenerateCatcher(cs[i]))
  {
    seq(|cs|, i requires 0 <= i < |cs| => JObj(GenerateCatcher(cs[i])))
  }

  function GenerateCatch(v: CatchValue): seq<Member>
  {
    [("Catch", JArr(CatchEntries(v.catchers)))]
  }

  /** The keys any field encoding may write at the top level of a state. */
  const FieldKeys: set<string> := {"End", "Next", "InputPath", "OutputPath", "Result", "ResultPath", "Retry", "Catch"}

  /** `generateField`: the encoder of the field's own class. */
  function GenerateField(f: FieldValue): (ms: seq<Member>)
    ensures DistinctKeys(ms) && KeysAmong(ms, FieldKeys)
  {
    match f
    case NextF(n) => GenerateNext(n)
    case PathF(p) => GeneratePath(p)
    case ResultPathF(rp) => GenerateResultPath(rp)
    case ResultF(r) => GenerateResult(r)
    case RetryF(r) => GenerateRetry(r)
    case CatchF(c) => GenerateCatch(c)
  }

  /** The `filter` on configured fields and the `reduce` that assigns each one's encoding onto the variant's base. */
  function AssignFields(base: seq<Member>, fs: seq<FieldValue>): seq<Member>
    decreases |fs|
  {
    if fs == [] then base
    else AssignFields(if IsConfigured(fs[0]) then Assign(base, GenerateField(fs[0])) else base, fs[1..])
  }

  /** Merging field encodings never touches a key no field writes, such as `Type`. */
  lemma {:induction false} AssignFieldsKeeps(base: seq<Member>, fs: seq<FieldValue>, key: string)
    requires key !in FieldKeys
    ensures Lookup(AssignFields(base, fs), key) == Lookup(base, key)
    decreases |fs|
  {
    if fs != [] {
      var next := if IsConfigured(fs[0]) then Assign(base, GenerateField(fs[0])) else base;
      if IsConfigured(fs[0]) {
        KeyOutside(GenerateField(fs[0]), FieldKeys, key);
        LookupAssign(base, GenerateField(fs[0]), key);
      }
      AssignFieldsKeeps(next, fs[1..], key);
    }
  }

  // ----- choice rules -----

  /** `LogicRuleMap[rule]`: a comparator rule has no entry, and the key becomes "undefined". */
  function LogicKey(r: ChoiceRule): string
  {
    if IsLogicRule(r) then Keyword(r) else "undefined"
  }

  /** `ComparatorRuleMap[rule]`: a logic rule has no entry, and the key becomes "undefined". */
  function ComparatorKey(r: ChoiceRule): string
  {
    if IsLogicRule(r) then "undefined" else Keyword(r)
  }

  function OperandJson(v: Option<Operand>): Option<Json>
  {
    match v
    case None => None
    case Some(OStr(s)) => Some(JStr(s))
    case Some(ONum(n)) => Some(JNum(n))
    case Some(OBool(b)) => Some(JBool(b))
  }

  /**
   * The expressions `generateChoiceOperation` can encode: a `Not` node reads
   * its first child and fails on `undefined` when it has none; `And`/`Or`
   * nodes encode every child.
   */
  predicate Encodable(e: ChoiceExpr)
    decreases e, 1
  {
    match e
    case Logic(rule, children, _) =>
      if rule == Not then children != [] && Encodable(children[0]) else AllEncodable(children)
    case Comparator(_, _, _, _) => true
  }

  predicate AllEncodable(es: seq<ChoiceExpr>)
    decreases es, 0
  {
    es == [] || (Encodable(es[0]) && AllEncodable(es[1..]))
  }

  /**
   * `generateChoiceOperation`: `Not` nests its operand's object, `And`/`Or`
   * list their operands' objects in order, a comparator writes its value under
   * the rule's keyword and then `Variable`; a node's Next or End is merged last.
   */
  function GenerateChoiceOperation(e: ChoiceExpr): (r: Result<seq<Member>>)
    ensures r.Ok? <==> Encodable(e)
    ensures r.Err? ==> r.error == UndefinedAccess("operation")
    decreases e, 1
  {
    var data :- match e
      case Logic(rule, children, _) =>
        if rule == Not then
          if children == [] then Err(UndefinedAccess("operation"))
          else
            var child :- GenerateChoiceOperation(children[0]);
            Ok([(LogicKey(rule), JObj(child))])
        else
          var items :- GenerateChoiceList(children);
          Ok([(LogicKey(rule), JArr(items))])
      case Comparator(rule, variable, value, _) =>
        Ok(Optional(ComparatorKey(rule), OperandJson(value)) + Optional("Variable", TextOf(variable)));
    Ok(if e.next.Some? then Assign(data, GenerateNext(e.next.value)) else data)
  }

  /** The `map` over a node list; the first failing node's error is thrown. */
  function GenerateChoiceList(es: seq<ChoiceExpr>): (r: Result<seq<Json>>)
    ensures r.Ok? <==> AllEncodable(es)
    ensures r.Ok? ==> |r.value| == |es|
    ensures r.Err? ==> r.error == UndefinedAccess("operation")
    decreases es, 0
  {
    if es == [] then Ok([])
    else
      var head :- GenerateChoiceOperation(es[0]);
      var tail :- GenerateChoiceList(es[1..]);
      Ok([JObj(head)] + tail)
  }

  /** A comparator node keeps its operands under their keys whatever transition is merged after them. */
  lemma ComparatorOperands(e: ChoiceExpr)
    requires e.Comparator?
    ensures GenerateChoiceOperation(e).Ok?
    ensures Lookup(GenerateChoiceOperation(e).value, "Variable") == TextOf(e.variable)
    ensures !IsLogicRule(e.rule) ==> Lookup(GenerateChoiceOperation(e).value, Keyword(e.rule)) == OperandJson(e.value)
  {
    var data := Optional(ComparatorKey(e.rule), OperandJson(e.value)) + Optional("Variable", TextOf(e.variable));
    KeywordsDistinct(e.rule, e.rule);
    ComparatorData(e.rule, e.variable, e.value);
    if e.next.Some? {
      var n := GenerateNext(e.next.value);
      KeyOutside(n, {"End", "Next"}, "Variable");
      LookupAssign(data, n, "Variable");
      if !IsLogicRule(e.rule) {
        KeyOutside(n, {"End", "Next"}, Keyword(e.rule));
        LookupAssign(data, n, Keyword(e.rule));
      }
    }
  }

  /** The operand members of a comparator, before any transition is merged. */
  lemma ComparatorData(rule: ChoiceRule, variable: Option<string>, value: Option<Operand>)
    ensures var data := Optional(ComparatorKey(rule), OperandJson(value)) + Optional("Variable", TextOf(variable));
            Lookup(data, "Variable") == TextOf(variable)
            && (!IsLogicRule(rule) ==> Lookup(data, Keyword(rule)) == OperandJson(value))
            && DistinctKeys(data)
  {
    KeywordsDistinct(rule, rule);
    var a, b := Optional(ComparatorKey(rule), OperandJson(value)), Optional("Variable", TextOf(variable));
    LookupConcat(a, b, "Variable");
    LookupConcat(a, b, Keyword(rule));
  }

  /**
   * `Not` wraps exactly its first operand's object and `And`/`Or` list one
   * object per operand, under the rule's keyword, whatever transition is
   * merged after them; without a transition that is the whole object.
   */
  lemma LogicOperands(e: ChoiceExpr)
    requires e.Logic? && Encodable(e)
    ensures GenerateChoiceOperation(e).Ok?
    ensures e.rule == Not ==>
      Lookup(GenerateChoiceOperation(e).value, LogicKey(e.rule)) == Some(JObj(GenerateChoiceOperation(e.children[0]).value))
    ensures e.rule != Not ==>
      Lookup(GenerateChoiceOperation(e).value, LogicKey(e.rule)) == Some(JArr(GenerateChoiceList(e.children).value))
    ensures e.next.None? ==> |GenerateChoiceOperation(e).value| == 1
  {
    var key := LogicKey(e.rule);
    var operand := if e.rule == Not then JObj(GenerateChoiceOperation(e.children[0]).value)
                   else JArr(GenerateChoiceList(e.children).value);
    var data := [(key, operand)];
    assert Lookup(data, key) == Some(operand);
    KeywordsDistinct(e.rule, e.rule);
    if e.next.Some? {
      var n := GenerateNext(e.next.value);
      KeyOutside(n, {"End", "Next"}, key);
      LookupAssign(data, n, key);
    }
  }

  /** `generateChoice`: the encoded choices in order, then Default when one is set. */
  function GenerateChoice(choices: seq<ChoiceExpr>, default: Option<string>): (r: Result<seq<Member>>)
    ensures r.Ok? <==> AllEncodable(choices)
    ensures r.Ok? ==> Lookup(r.value, "Default") == TextOf(default)
  {
    var items :- GenerateChoiceList(choices);
    var head := [("Type", JStr("Choice")), ("Choices", JArr(items))];
    AbsentKey(head, "Default");
    LookupConcat(head, Optional("Default", TextOf(default)), "Default");
    Ok(head + Optional("Default", TextOf(default)))
  }

  // ----- states -----

  /** `generateTask`: Type and Resource, then each of HeartbeatSeconds and TimeoutSeconds when it is not null. */
  function TaskBase(resource: Option<string>, heartbeat: Option<int>, timeout: Option<int>): seq<Member>
  {
    [("Type", JStr("Task"))] + Optional("Resource", TextOf(resource))
    + Optional("HeartbeatSeconds", NumberOf(heartbeat)) + Optional("TimeoutSeconds", NumberOf(timeout))
  }

  lemma TaskBaseKeys(resource: Option<string>, heartbeat: Option<int>, timeout: Option<int>)
    ensures Lookup(TaskBase(resource, heartbeat, timeout), "Resource") == TextOf(resource)
    ensures Lookup(TaskBase(resource, heartbeat, timeout), "HeartbeatSeconds") == NumberOf(heartbeat)
    ensures Lookup(TaskBase(resource, heartbeat, timeout), "TimeoutSeconds") == NumberOf(timeout)
  {
    var t := [("Type", JStr("Task"))];
    var r := Optional("Resource", TextOf(resource));
    var h := Optional("HeartbeatSeconds", NumberOf(heartbeat));
    var o := Optional("TimeoutSeconds", NumberOf(timeout));
    OptionsLookup(t, r, h, o, "Resource");
    OptionsLookup(t, r, h, o, "HeartbeatSeconds");
    OptionsLookup(t, r, h, o, "TimeoutSeconds");
  }

  /** `generateWait`, `generateTask`, ...: the part of a state's encoding its own class writes. */
  function GenerateBase(v: StateValue): (r: Result<seq<Member>>)
    decreases v, 0
  {
    match v.body
    case PassBody(_, _, _, _) => Ok([("Type", JStr("Pass"))])
    case TaskBody(_, _, _, _, _, _, resource, heartbeat, timeout) => Ok(TaskBase(resource, heartbeat, timeout))
    case WaitBody(next, seconds) =>
      Ok(Assign([("Type", JStr("Wait")), ("Seconds", NumberOf(seconds).GetOr(JNull))], GenerateNext(next)))
    case SucceedBody => Ok([("Type", JStr("Succeed"))])
    case FailBody(error) =>
      var errorType :- FailErrorType(error);
      Ok([("Type", JStr("Fail")), ("Error", JStr(errorType)), ("Cause", JStr(FailErrorMessage(error).value))])
    case ParallelBody(_, _, _, branches) =>
      var items :- GenerateBranches(branches);
      Ok([("Type", JStr("Parallel")), ("Branches", JArr(items))])
    case ChoiceBody(choices, default) => GenerateChoice(choices, default)
  }

  /**
   * `generateState`: the variant's base is built first (and may throw), then
   * the state is validated and its first error thrown; otherwise the
   * encodings of the configured fields are assigned onto the base.
   */
  function GenerateState(v: StateValue): (r: Result<seq<Member>>)
    ensures r.Ok? ==> ValidateState(v) == [] && GenerateBase(v).Ok?
    ensures GenerateBase(v).Ok? && ValidateState(v) != [] ==> r == Err(ValidateState(v)[0])
    ensures GenerateBase(v).Err? ==> r == Err(GenerateBase(v).error)
    decreases v, 1
  {
    var base :- GenerateBase(v);
    var errors := ValidateState(v);
    if errors != [] then Err(errors[0])
    else Ok(AssignFields(base, FieldsOf(v.body)))
  }

  /** The branch map of `generateParallel`: the start's name, then the states keyed by name. */
  function GenerateBranch(b: BranchValue): (r: Result<Json>)
    decreases b, 1
  {
    if b.start.None? then Err(UndefinedAccess("startAt"))
    else
      var states :- GenerateStates([], b.states);
      Ok(JObj([("StartAt", JStr(b.start.value)), ("States", JObj(states))]))
  }

  function GenerateBranches(bs: seq<BranchValue>): (r: Result<seq<Json>>)
    ensures r.Ok? ==> |r.value| == |bs|
    decreases bs, 0
  {
    if bs == [] then Ok([])
    else
      var head :- GenerateBranch(bs[0]);
      var tail :- GenerateBranches(bs[1..]);
      Ok([head] + tail)
  }

  /** The `reduce` that writes each state's encoding under its name, in order; a repeated name is overwritten in place. */
  function GenerateStates(acc: seq<Member>, vs: seq<StateValue>): (r: Result<seq<Member>>)
    decreases vs, 0
  {
    if vs == [] then Ok(acc)
    else
      var s :- GenerateState(vs[0]);
      GenerateStates(Put(acc, vs[0].name, JObj(s)), vs[1..])
  }

  /** No two states share a name. */
  predicate DistinctNames(vs: seq<StateValue>)
  {
    forall i, j :: 0 <= i < j < |vs| ==> vs[i].name != vs[j].name
  }

  function StateNames(vs: seq<StateValue>): (ns: seq<string>)
    ensures |ns| == |vs| && forall i :: 0 <= i < |vs| ==> ns[i] == vs[i].name
  {
    seq(|vs|, i requires 0 <= i < |vs| => vs[i].name)
  }

  /** Every state of the list encodes without throwing. */
  predicate AllEncode(vs: seq<StateValue>)
  {
    forall i :: 0 <= i < |vs| ==> GenerateState(vs[i]).Ok?
  }

  /** The entries the `reduce` writes: each state's name with its encoding, in order. */
  function Entries(vs: seq<StateValue>): (es: seq<Member>)
    requires AllEncode(vs)
    ensures |es| == |vs|
    ensures forall i :: 0 <= i < |vs| ==> es[i] == (vs[i].name, JObj(GenerateState(vs[i]).value))
  {
    if vs == [] then []
    else
      assert forall i :: 0 <= i < |vs[1..]| ==> vs[1..][i] == vs[i + 1];
      [(vs[0].name, JObj(GenerateState(vs[0]).value))] + Entries(vs[1..])
  }

  /** When every state encodes, the `reduce` is an `Object.assign` of the entries. */
  lemma {:induction false} StatesAssignEntries(acc: seq<Member>, vs: seq<StateValue>)
    requires AllEncode(vs)
    ensures GenerateStates(acc, vs) == Ok(Assign(acc, Entries(vs)))
    decreases |vs|
  {
    if vs != [] {
      var es := Entries(vs);
      assert forall i :: 0 <= i < |vs[1..]| ==> vs[1..][i] == vs[i + 1];
      StatesAssignEntries(Put(acc, vs[0].name, JObj(GenerateState(vs[0]).value)), vs[1..]);
      assert es[1..] == Entries(vs[1..]);
    }
  }

  /** A sequence of members whose keys are pointwise the given names has exactly those keys. */
  lemma {:induction false} KeysPointwise(ms: seq<Member>, ns: seq<string>)
    requires |ms| == |ns| && forall i :: 0 <= i < |ms| ==> ms[i].0 == ns[i]
    ensures Keys(ms) == ns
  {
    if ms != [] {
      KeysPointwise(ms[1..], ns[1..]);
    }
  }

  /**
   * When every state encodes and no two share a name, the `States` object has
   * one key per state, in state order, each holding that state's encoding.
   */
  lemma StatesKeyedInOrder(vs: seq<StateValue>)
    requires AllEncode(vs) && DistinctNames(vs)
    ensures GenerateStates([], vs) == Ok(Entries(vs))
    ensures Keys(Entries(vs)) == StateNames(vs)
    ensures DistinctKeys(Entries(vs))
  {
    StatesAssignEntries([], vs);
    AssignIntoEmpty(Entries(vs), StateNames(vs));
  }

  /** Members whose keys are pointwise distinct names: assigning them onto `{}` gives them back, keyed by those names. */
  lemma AssignIntoEmpty(es: seq<Member>, ns: seq<string>)
    requires |es| == |ns| && forall i :: 0 <= i < |es| ==> es[i].0 == ns[i]
    requires forall i, j :: 0 <= i < j < |ns| ==> ns[i] != ns[j]
    ensures Assign([], es) == es && Keys(es) == ns && DistinctKeys(es)
  {
    AssignFresh([], es);
    KeysPointwise(es, ns);
  }

  /** One step of the `reduce`: an encodable first state is written under its name. */
  lemma StatesStep(acc: seq<Member>, vs: seq<StateValue>)
    requires vs != [] && GenerateState(vs[0]).Ok?
    ensures GenerateStates(acc, vs) == GenerateStates(Put(acc, vs[0].name, JObj(GenerateState(vs[0]).value)), vs[1..])
  {
  }

  /** A state whose encoding fails makes the whole `States` object fail. */
  lemma {:induction false} StatesFailWithState(acc: seq<Member>, vs: seq<StateValue>, k: nat)
    requires k < |vs| && GenerateState(vs[k]).Err?
    ensures GenerateStates(acc, vs).Err?
    decreases |vs|
  {
    if k > 0 && GenerateState(vs[0]).Ok? {
      assert vs[1..][k - 1] == vs[k];
      var acc' := Put(acc, vs[0].name, JObj(GenerateState(vs[0]).value));
      StatesFailWithState(acc', vs[1..], k - 1);
      StatesStep(acc, vs);
    }
  }

  /** A generated state carries its class name under `Type`, whatever fields were merged into it. */
  lemma GeneratedType(v: StateValue)
    requires GenerateState(v).Ok?
    ensures Lookup(GenerateState(v).value, "Type") == Some(JStr(TypeName(KindOf(v.body))))
  {
    var base := GenerateBase(v).value;
    assert "Type" !in FieldKeys;
    AssignFieldsKeeps(base, FieldsOf(v.body), "Type");
    if v.body.WaitBody? {
      var n := GenerateNext(v.body.next);
      KeyOutside(n, {"End", "Next"}, "Type");
      LookupAssign([("Type", JStr("Wait")), ("Seconds", NumberOf(v.body.seconds).GetOr(JNull))], n, "Type");
    }
  }

  /** A Task's HeartbeatSeconds and TimeoutSeconds are written exactly when they are set. */
  lemma TaskOptionalKeys(v: StateValue)
    requires v.body.TaskBody? && GenerateState(v).Ok?
    ensures Lookup(GenerateState(v).value, "HeartbeatSeconds") == NumberOf(v.body.heartbeat)
    ensures Lookup(GenerateState(v).value, "TimeoutSeconds") == NumberOf(v.body.timeout)
    ensures Lookup(GenerateState(v).value, "Resource") == TextOf(v.body.resource)
  {
    var base := GenerateBase(v).value;
    TaskBaseKeys(v.body.resource, v.body.heartbeat, v.body.timeout);
    AssignFieldsKeeps(base, FieldsOf(v.body), "HeartbeatSeconds");
    AssignFieldsKeeps(base, FieldsOf(v.body), "TimeoutSeconds");
    AssignFieldsKeeps(base, FieldsOf(v.body), "Resource");
  }

  // ----- the machine -----

  /** The object `generateStateMachine` builds around a given `States` object. */
  function MachineObject(m: MachineValue, states: seq<Member>): seq<Member>
    requires m.start.Some?
  {
    [("StartAt", JStr(m.start.value)), ("States", JObj(states))]
    + (if PresentText(m.comment) then [("Comment", JStr(m.comment.value))] else [])
    + (if PresentNumber(m.timeout) then [("TimeoutSeconds", JNum(m.timeout.value))] else [])
    + (if PresentText(m.version) then [("Version", JStr(m.version.value))] else [])
  }

  /** StartAt and States are always written; each option exactly when it is truthy. */
  lemma MachineObjectKeys(m: MachineValue, states: seq<Member>)
    requires m.start.Some?
    ensures Lookup(MachineObject(m, states), "StartAt") == Some(JStr(m.start.value))
    ensures Lookup(MachineObject(m, states), "States") == Some(JObj(states))
    ensures Lookup(MachineObject(m, states), "Comment") == if PresentText(m.comment) then TextOf(m.comment) else None
    ensures Lookup(MachineObject(m, states), "TimeoutSeconds") == if PresentNumber(m.timeout) then NumberOf(m.timeout) else None
    ensures Lookup(MachineObject(m, states), "Version") == if PresentText(m.version) then TextOf(m.version) else None
  {
    var a := [("StartAt", JStr(m.start.value)), ("States", JObj(states))];
    var c := if PresentText(m.comment) then [("Comment", JStr(m.comment.value))] else [];
    var t := if PresentNumber(m.timeout) then [("TimeoutSeconds", JNum(m.timeout.value))] else [];
    var v := if PresentText(m.version) then [("Version", JStr(m.version.value))] else [];
    AbsentKey(a, "Comment");
    AbsentKey(a, "TimeoutSeconds");
    AbsentKey(a, "Version");
    AbsentKey(c, "TimeoutSeconds");
    AbsentKey(c, "Version");
    AbsentKey(t, "Version");
    OptionsLookup(a, c, t, v, "StartAt");
    OptionsLookup(a, c, t, v, "States");
    OptionsLookup(a, c, t, v, "Comment");
    OptionsLookup(a, c, t, v, "TimeoutSeconds");
    OptionsLookup(a, c, t, v, "Version");
  }

  lemma OptionsLookup(a: seq<Member>, c: seq<Member>, t: seq<Member>, v: seq<Member>, key: string)
    ensures Lookup(a + c + t + v, key)
         == if Lookup(a, key).Some? then Lookup(a, key)
            else if Lookup(c, key).Some? then Lookup(c, key)
            else if Lookup(t, key).Some? then Lookup(t, key)
            else Lookup(v, key)
  {
    LookupConcat(a + c + t, v, key);
    LookupConcat(a + c, t, key);
    LookupConcat(a, c, key);
  }

  /**
   * `generateStateMachine`: StartAt is the start state's name (reading it
   * when there is none throws), `States` keys each state's encoding by name
   * and keeps its place as the second key, and Comment, TimeoutSeconds and
   * Version follow when truthy.
   */
  function GenerateMachine(m: MachineValue): (r: Result<seq<Member>>)
    ensures m.start.None? ==> r == Err(UndefinedAccess("startState"))
  {
    if m.start.None? then Err(UndefinedAccess("startState"))
    else
      var states :- GenerateStates([], m.states);
      Ok(MachineObject(m, states))
  }

  /**
   * A machine with a start and distinctly named, encodable states gives
   * StartAt, a States object holding the state names in the order the states
   * were added, and each option exactly when it is truthy.
   */
  lemma MachineShape(m: MachineValue)
    requires m.start.Some? && DistinctNames(m.states) && AllEncode(m.states)
    ensures GenerateMachine(m) == Ok(MachineObject(m, Entries(m.states)))
    ensures Keys(Entries(m.states)) == StateNames(m.states)
  {
    StatesKeyedInOrder(m.states);
  }

  /** A machine fails to encode as soon as one of its states does. */
  lemma MachineFailsWithState(m: MachineValue, k: nat)
    requires k < |m.states| && GenerateState(m.states[k]).Err?
    ensures GenerateMachine(m).Err?
  {
    if m.start.Some? {
      StatesFailWithState([], m.states, k);
    }
  }

  // ----- the shapes the generator's tests expect -----

  /** `new Pass(name).next.end()`, as a snapshot. */
  function EndedPass(name: string): (s: StateValue)
    ensures s.body.PassBody?
  {
    var s := FreshState(PassKind, name);
    WithNext(s, MarkEnd(s.body.next).value)
  }

  /** An ended Pass state has nothing left to report. */
  lemma EndedPassValid(name: string)
    ensures ValidateState(EndedPass(name)) == []
  {
    var fs := FieldsOf(EndedPass(name).body);
    FieldErrorsCons(fs[3], []);
    assert [fs[3]] == fs[3..];
    FieldErrorsCons(fs[2], fs[3..]);
    assert [fs[2]] + fs[3..] == fs[2..];
    FieldErrorsCons(fs[1], fs[2..]);
    assert [fs[1]] + fs[2..] == fs[1..];
    FieldErrorsCons(fs[0], fs[1..]);
    assert [fs[0]] + fs[1..] == fs;
  }

  /** Of an ended Pass state's fields only the next field is configured, and it writes `End`. */
  lemma EndedPassFields(name: string)
    ensures AssignFields([("Type", JStr("Pass"))], FieldsOf(EndedPass(name).body))
         == [("Type", JStr("Pass")), ("End", JBool(true))]
  {
    var fs := FieldsOf(EndedPass(name).body);
    var base := [("Type", JStr("Pass"))];
    assert !IsConfigured(fs[0]) && !IsConfigured(fs[1]) && !IsConfigured(fs[2]) && IsConfigured(fs[3]);
    assert fs[1..][1..] == fs[2..] && fs[2..][1..] == fs[3..] && fs[3..][1..] == [];
    assert GenerateField(fs[3]) == [("End", JBool(true))];
    assert Assign(base, [("End", JBool(true))]) == [("Type", JStr("Pass")), ("End", JBool(true))];
    calc {
      AssignFields(base, fs);
      AssignFields(base, fs[1..]);
      AssignFields(base, fs[2..]);
      AssignFields(base, fs[3..]);
      AssignFields(Assign(base, [("End", JBool(true))]), []);
    }
  }

  /** `new Pass("foo").next.end()` encodes to `{Type: "Pass", End: true}`. */
  lemma PassEndShape(name: string)
    ensures GenerateState(EndedPass(name)) == Ok([("Type", JStr("Pass")), ("End", JBool(true))])
  {
    EndedPassValid(name);
    EndedPassFields(name);
  }
}
