# flowbject core, modelled in Dafny

flowbject builds Amazon States Language (ASL) workflows as TypeScript objects. It has three parts:

- **The object model.** A `StateMachine` holds named states: Pass, Task, Wait, Succeed, Fail, Parallel and Choice. Each state owns *fields*: a Next/End transition, input and output paths, a result path, a literal result, Retry policies and Catch handlers. Setters change these in place and check what they can at once, such as JSON paths, locked transitions and Wait seconds. `validate()` reports everything else later: missing transitions, missing resources, empty machines and branches without a start.
- **The generator** (`StepFunctionsGenerator`). It turns the objects into the ASL JSON document. It validates each state first and throws that state's first error.
- **The AWS hydrators.** They map a document back onto fresh objects (`hydrate`) and objects onto a document (`extract`). A registry keyed by the `Type` string picks the class.

How the model is built:

- Every field and state class, the branch and the machine are Dafny `class`es. Their setters are methods with `modifies` clauses.
- Each class has a `Value()` snapshot function into a datatype, and every method is proved against a pure function on those snapshots. `Next.Set` is proved against `SetTarget`, for example, and `HydrateCatch` against `HydrateCatchValue`.
- The generator and all `extract` functions are pure functions over snapshots.
- A JSON object is an association list that holds its keys in the order they were created. `Lookup`, `Put` and `Assign` model property reads, writes and `Object.assign`. A key whose JavaScript value is `undefined` is absent.
- JavaScript enumerates an object's keys (`Object.keys`, `JSON.stringify`) in a different order. Keys that are array indices (`"0"`, `"42"`) come first, in ascending numeric order, and the other keys follow in creation order (section 10.1.11.1 of ECMA-262). `PropertyOrder.Enumerated` gives that order. The two hydrators that walk `Object.keys` walk `Enumerated`.
- A thrown `Error` is a `Failure` value. Methods return it. Value functions return a `Result`, or an `Effect` (the state reached plus what was thrown) wherever the source has already changed things before it throws.

Modules and files:

- `json.dfy`, `wrappers.dfy`, `failures.dfy`: JSON values, `Option`/`Result`/`Effect`, and the failures the source throws.
- `utils.dfy`, `field.dfy`, `next_field.dfy`, `path_field.dfy`, `result_path_field.dfy`, `result_field.dfy`, `retry_field.dfy`, `catch_field.dfy`, `error_names.dfy`: the fields, and the retry error-code table.
- `state_values.dfy`, `pass_state.dfy`, `task_state.dfy`, `wait_state.dfy`, `succeed_state.dfy`, `fail_state.dfy`, `parallel_state.dfy`, `choice_rules.dfy`, `choice_state.dfy`, `state_ref.dfy`: state snapshots, validation and the state classes. `StateRef` is a closed variant over the seven classes, because the source's `State[]` lists mix them.
- `state_machine.dfy`, `helpers.dfy`: the machine and `statesAutolink`.
- `parse_int.dfy`, `property_order.dfy`: JavaScript's `parseInt`, and the order in which JavaScript lists an object's keys.
- `generator.dfy`: `StepFunctionsGenerator`.
- `hydrate_fields.dfy`, `hydrate_retry.dfy`, `hydrate_catch.dfy`, `extract_states.dfy`, `hydrate_states.dfy`, `hydrate_state_methods.dfy`, `hydrate_machine.dfy`: the field hydrators, the state hydrators, the manager and the machine hydrator.

Some calls in the core name members that no class in the core defines. The model reads each as the evident member:

- `setEnd()` on a next field (`src/helpers.ts:19`, `src/hydrators/aws/NextFieldHydrator.ts:18`) is read as `end()`.
- `nextStateName()` in `generateNextField` is read as `get()`.
- Some `StateMachine` members are used by the generator and the machine hydrator but not defined in `src/StateMachine.ts`: `getStartState`, `getStates`, `setComment`, `setTimeout`, `setVersion` and `setStartState`. They are read as plain accessors of the machine's own slots.
- The start state is held by name. `startState` is declared a `State` (`src/StateMachine.ts:13`, `src/StateMachine.ts:26-29`). But the generator (`src/generators/StepFunctionsGenerator.ts:35`) and `dump()` (`src/StateMachine.ts:62`) write its `getName()`, and the machine hydrator's `setStartState(data['StartAt'])` stores the string it reads. `StateMachineHydrator.extract` writes `StartAt: instance.getStartState()` without `.getName()` (`src/hydrators/aws/StateMachineHydrator.ts:9`). Under this reading it writes the name, as the other two writers do.
- Task's `retry` field, `setHeartbeat`/`getHeartbeat` and `setTimeout`/`getTimeout` come from the generator, `TaskStateHydrator` and the tests. `src/states/Task.ts` does not declare them.
- The Choice operation tree the generator walks (`getOperations`, `getRule`, `getValue`, `getVariable`, `getDefault`) is the `ChoiceExpr` datatype.
- `withError(err)` on a Fail state (`src/hydrators/aws/FailStateHydrator.ts:18`) is read as `with(err)`, which `src/states/Fail.ts` defines.
- `validateFields()` on each state (`src/StateMachine.ts:51`) is not defined by any state class. It is read as the state's `validate()`.
- `src/states/Succeed.ts` is not part of this model. The Succeed class is a state with no fields, as the registry and `generateSucceed` use it.

Some behaviour of the code worth knowing, which the model keeps:

- `addState` appends the state before it tests the name, so a duplicate name throws after the state is already in the list (`src/StateMachine.ts:40-42`).
- `addState` links nothing. States are linked only by the separate `statesAutolink` helper (`src/helpers.ts`).
- Choice checks neither the number of operands of a rule nor the type of a comparator's value.
- `validateJsonPath` accepts any string that starts with `$.` (`src/utils.ts:6-12`).
- The Parallel hydrator never reads a branch's `StartAt`.
- The Parallel and machine hydrators walk the states in `Object.keys` order (`src/hydrators/aws/ParallelStateHydrator.ts:26`, `src/hydrators/aws/StateMachineHydrator.ts:40`). A state whose name is an array index, such as `1`, is therefore added first and becomes the start, even when it was written last.
- A Task never compares its heartbeat with its timeout.

## Model

| member | source | states |
|---|---|---|
| Utils.ValidateJsonPath | src/utils.ts:6-12 | no error exactly when the path starts with `$.`; otherwise the error carries the path |
| Utils.AcceptedPaths | src/utils.ts:2-12 | every `$.`-prefixed string is accepted whatever follows; every string shorter than two characters is refused |
| FieldBase.RequiredCheck | src/fields/Field.ts:21-28 | an error naming the field class exactly when the field is required and unconfigured |
| NextFields.ValidateNext | src/fields/NextField.ts:69-74 | a locked field never fails; otherwise it fails exactly when unconfigured |
| NextFields.SetTarget | src/fields/NextField.ts:35-47 | refused exactly on a locked field; otherwise stores the name, clears End, configures, keeps owner and options |
| NextFields.MarkEnd | src/fields/NextField.ts:59-67 | the end-forbidden error comes before the lock error; success sets End, configures and keeps the stored name |
| NextFields.ConfigureToValidate | src/fields/NextField.ts:18-74 | a fresh unlocked field fails validation until `set`, or `end` where allowed, succeeds |
| NextFields.SetAndEndInteract | src/fields/NextField.ts:35-67 | `set` after `end` clears End; `end` after `set` keeps the name |
| NextFields.LockedRefusesEverything | src/fields/NextField.ts:53-74 | a locked field refuses `set` and `end` and always validates |
| NextFields.NextField.constructor | src/fields/NextField.ts:18-24 | a new field is unconfigured, without target or End, with the given options |
| NextFields.NextField.IsEnd | src/fields/NextField.ts:30-33 | throws on a locked field, otherwise reports the End flag |
| NextFields.NextField.Set | src/fields/NextField.ts:35-47 | the new state is `SetTarget`'s; a refusal changes nothing; configured never reverts |
| NextFields.NextField.End | src/fields/NextField.ts:59-67 | the new state is `MarkEnd`'s; a refusal changes nothing; configured never reverts |
| PathFields.ValidatePath | src/fields/PathField.ts:10-26 | passes exactly when each set path is a JSON path; the input path's error is reported first |
| PathFields.StoreInput | src/fields/PathField.ts:28-36 | throws exactly for a non-JSON path, changing nothing; otherwise stores it, configures, keeps the output path |
| PathFields.StoreOutput | src/fields/PathField.ts:42-50 | as `StoreInput`, for the output path |
| PathFields.SettersKeepValid | src/fields/PathField.ts:10-50 | the setters preserve validity: a field built through them always validates |
| PathFields.PathField.SetInput | src/fields/PathField.ts:28-36 | the object's new state is `StoreInput`'s; a throw leaves it unchanged |
| PathFields.PathField.constructor | src/fields/PathField.ts:5-8 | both paths null and the field unconfigured |
| PathFields.PathField.SetOutput | src/fields/PathField.ts:42-50 | the object's new state is `StoreOutput`'s; a throw leaves it unchanged |
| ResultPathFields.GetPath | src/fields/ResultPathField.ts:35-41 | `null` once discarded, the stored path otherwise |
| ResultPathFields.ValidateResultPath | src/fields/ResultPathField.ts:11-17 | passes exactly when no path or a JSON path is stored |
| ResultPathFields.MarkDiscarded | src/fields/ResultPathField.ts:19-23 | discarded and configured, the path kept, and `get()` then gives `null` |
| ResultPathFields.SetPath | src/fields/ResultPathField.ts:25-33 | throws exactly for a non-JSON path; otherwise stores it and configures, leaving the discard flag |
| ResultPathFields.DiscardIsSticky | src/fields/ResultPathField.ts:19-41 | after `discard()`, no later `set` makes `get()` return a path |
| ResultPathFields.ResultPathField.Discard | src/fields/ResultPathField.ts:19-23 | the object's new state is `MarkDiscarded`'s |
| ResultPathFields.ResultPathField.constructor | src/fields/ResultPathField.ts:5-9 | no path, not discarded, unconfigured |
| ResultPathFields.ResultPathField.Set | src/fields/ResultPathField.ts:25-33 | the object's new state is `SetPath`'s; a throw leaves it unchanged |
| ResultFields.SetResult | src/fields/ResultField.ts:14-19 | any JSON value, `null` included, is stored and the field configured |
| ResultFields.ResultField.Set | src/fields/ResultField.ts:14-19 | the object's new state is `SetResult`'s |
| ResultFields.ResultField.constructor | src/fields/ResultField.ts:9-12 | no result and the field unconfigured |
| RetryFields.Ordinal | src/fields/RetryField.ts:6-14 | each error code's enum number is below 7 |
| RetryFields.OrdinalInjective | src/fields/RetryField.ts:6-14 | distinct codes have distinct enum numbers |
| RetryFields.AddRetrier | src/fields/RetryField.ts:69-75 | appends one retrier holding just the code, with attributes unset; earlier retriers unchanged; field configured |
| RetryFields.Retrier.constructor | src/fields/RetryField.ts:23-28 | interval, backoff rate and max attempts start null |
| RetryFields.NewRetrier | src/fields/RetryField.ts:69-75 | the retrier `createRetrier(code)` builds: fresh, holding the one code, attributes null |
| RetryFields.RetryField.constructor | src/fields/RetryField.ts:62-65 | no retriers, unconfigured, and the list is owned by the field alone |
| RetryFields.Retrier.SetErrorTypes | src/fields/RetryField.ts:30-32 | replaces the codes and nothing else |
| RetryFields.Retrier.SetInterval | src/fields/RetryField.ts:36-39 | sets the interval and nothing else |
| RetryFields.Retrier.SetBackoffRate | src/fields/RetryField.ts:43-46 | sets the backoff rate and nothing else |
| RetryFields.Retrier.SetMaxAttempts | src/fields/RetryField.ts:50-53 | sets max attempts and nothing else |
| RetryFields.Retrier.SetIntervalNotANumber | src/hydrators/aws/RetryFieldHydrator.ts:71-73 | `setInterval(NaN)`: the interval holds no number and nothing else changes |
| RetryFields.Retrier.SetBackoffRateNotANumber | src/hydrators/aws/RetryFieldHydrator.ts:68-70 | `setBackoffRate(NaN)`: the backoff rate holds no number and nothing else changes |
| RetryFields.Retrier.SetMaxAttemptsNotANumber | src/hydrators/aws/RetryFieldHydrator.ts:65-67 | `setMaxAttempts(NaN)`: max attempts holds no number and nothing else changes |
| RetryFields.RetryField.CreateRetrier | src/fields/RetryField.ts:69-136 | returns a fresh retrier appended to the list, and the field's snapshot becomes `AddRetrier`'s; covers the seven named helpers |
| CatchFields.ValidateCatcher | src/fields/CatchField.ts:28-35 | the next field's error counts only when the catcher names errors; otherwise the result path's |
| CatchFields.FirstCatcherError | src/fields/CatchField.ts:56-69 | no error exactly when every catcher validates |
| CatchFields.FirstCatcherErrorIsFirst | src/fields/CatchField.ts:60-66 | the reported error is the first failing catcher's; later catchers are not consulted |
| CatchFields.AddCatcher | src/fields/CatchField.ts:46-52 | appends a fresh catcher holding the names; the field is configured |
| CatchFields.CatcherNeedsTransition | src/fields/CatchField.ts:12-35 | a fresh catcher naming errors lacks its transition; one naming none validates |
| CatchFields.ErrorCatcher.constructor | src/fields/CatchField.ts:12-17 | a fresh catcher with its own fresh next and result-path fields and no names |
| CatchFields.ErrorCatcher.SetErrors | src/fields/CatchField.ts:19-22 | replaces the names and returns the owner |
| CatchFields.ErrorCatcher.GetErrors | src/fields/CatchField.ts:24-26 | as written: hands the names out and empties the catcher's list |
| CatchFields.CatchField.Errors | src/fields/CatchField.ts:46-52 | returns a fresh catcher appended to the list; the snapshot becomes `AddCatcher`'s |
| CatchFields.NewCatcher | src/fields/CatchField.ts:46-52 | the catcher `errors(names)` builds: fresh, owned by the state, holding exactly the names, with its own fresh next and result-path fields |
| CatchFields.CatchField.constructor | src/fields/CatchField.ts:42-45 | no catchers, unconfigured, and the list is owned by the field alone |
| CatchFields.CatchField.GetCatchers | src/fields/CatchField.ts:53-55 | as written: hands the catchers out and empties the field's list |
| CatchFields.DrainingGetCatchers | src/fields/CatchField.ts:53-55 | a second read of a field holding one catcher gets none |
| CatchFields.CopyingCatchers | src/fields/CatchField.ts:53-55 | read as a copy, two reads give the same one-catcher list |
| ErrorNames.TableAtOrdinal | src/hydrators/aws/RetryFieldHydrator.ts:5-13 | the table lists each code once, at its own enum number |
| ErrorNames.CodeNamed | src/hydrators/aws/RetryFieldHydrator.ts:38-57 | the code found has the name; none is found only when no code has it |
| ErrorNames.WireNameBijective | src/hydrators/aws/RetryFieldHydrator.ts:5-13 | distinct codes have distinct `States.*` names, and each name reads back as its code |
| ErrorNames.CodeOf | src/hydrators/aws/RetryFieldHydrator.ts:38-57 | succeeds exactly for the string name of a code; otherwise the unsupported-code error carrying the value |
| ErrorNames.FindErrorCode | src/hydrators/aws/RetryFieldHydrator.ts:38-57 | the walk over the table in key order returns `CodeOf`'s answer |
| ParseInts.ParseInt | src/hydrators/aws/RetryFieldHydrator.ts:66 | `parseInt` of a value: a number reads as itself; `null`, booleans and objects read as NaN |
| ParseInts.DecimalRoundTrip | src/hydrators/aws/WaitStateHydrator.ts:14 | the decimal text of any integer reads back as that integer, also when followed by text that starts with neither a letter nor a digit |
| ParseInts.MinusNegates | src/hydrators/aws/StateMachineHydrator.ts:29 | a leading minus sign negates what the rest of the text reads as; NaN stays NaN |
| ParseInts.LeadingSpaceIgnored | src/hydrators/aws/RetryFieldHydrator.ts:69 | leading white space never changes what the text reads as |
| FieldHydrators.HydrateNextValue | src/hydrators/aws/NextFieldHydrator.ts:16-23 | `End: true` ends the field, subject to `end()`'s refusals; otherwise a truthy string `Next` sets the target unless locked; otherwise nothing changes |
| FieldHydrators.HydrateNext | src/hydrators/aws/NextFieldHydrator.ts:16-23 | the field object ends as `HydrateNextValue` says; a throw leaves it unchanged |
| FieldHydrators.NextRoundTrip | src/hydrators/aws/NextFieldHydrator.ts:7-23 | `{End: true}` and `{Next: name}` hydrate into a fresh field that extracts the same data |
| FieldHydrators.NextModelRoundTrip | src/hydrators/aws/NextFieldHydrator.ts:7-23 | any unlocked field whose target is not the empty name: its extract hydrates into a fresh field with the same End flag and the same extract |
| FieldHydrators.TruthyAt | src/hydrators/aws/PathFieldHydrator.ts:19-24 | a key's value as `if (data.X)` sees it: present and truthy, or nothing |
| FieldHydrators.HydratePathValue | src/hydrators/aws/PathFieldHydrator.ts:18-26 | a truthy input or output path is set; an invalid input path throws before any change; no truthy path leaves the field unchanged |
| FieldHydrators.HydratePath | src/hydrators/aws/PathFieldHydrator.ts:18-26 | the field object and what is thrown are `HydratePathValue`'s |
| FieldHydrators.PathRoundTrip | src/hydrators/aws/PathFieldHydrator.ts:7-26 | a field with valid paths hydrates from its extract into one with the same extract |
| FieldHydrators.HydrateResultPathValue | src/hydrators/aws/ResultPathFieldHydrator.ts:12-19 | absent: unchanged; `null`: discarded; a string is set exactly when it is a JSON path, otherwise it throws |
| FieldHydrators.HydrateResultPath | src/hydrators/aws/ResultPathFieldHydrator.ts:12-19 | the field object ends as `HydrateResultPathValue` says; a throw leaves it unchanged |
| FieldHydrators.ResultPathRoundTrip | src/hydrators/aws/ResultPathFieldHydrator.ts:7-19 | a valid field's extract hydrates into a configured field with the same extract |
| FieldHydrators.HydrateResultValue | src/hydrators/aws/ResultFieldHydrator.ts:10-15 | any present `Result`, `null` included, is stored and the field configured; an absent one changes nothing |
| FieldHydrators.HydrateResult | src/hydrators/aws/ResultFieldHydrator.ts:10-15 | the field object ends as `HydrateResultValue` says |
| FieldHydrators.ResultRoundTrip | src/hydrators/aws/ResultFieldHydrator.ts:7-15 | `{Result: v}` round-trips for every JSON value `v` |
| RetryHydrators.RetryEntries | src/hydrators/aws/RetryFieldHydrator.ts:16-36 | one object per retrier, in order |
| RetryHydrators.ExtractAgreesWithGenerator | src/hydrators/aws/RetryFieldHydrator.ts:16-36 | the hydrator's retrier extract equals the generator's corrected retrier encoding, despite the generator's second MaxAttempts write |
| RetryHydrators.ExtractRetryAgrees | src/hydrators/aws/RetryFieldHydrator.ts:16-36 | the same holds for the whole `Retry` list |
| RetryHydrators.CodesOf | src/hydrators/aws/RetryFieldHydrator.ts:75 | every name decoded pointwise, or the failure of a name that is not a code |
| RetryHydrators.CodesOfNamed | src/hydrators/aws/RetryFieldHydrator.ts:20-22 | codes written under their names decode back to the same codes |
| RetryHydrators.AttributeStep | src/hydrators/aws/RetryFieldHydrator.ts:65-73 | an absent attribute changes nothing; a present one, `null` included, is replaced by what `parseInt` reads from it (no number for NaN); the codes and the other two attributes never change |
| RetryHydrators.FillRetrier | src/hydrators/aws/RetryFieldHydrator.ts:65-75 | throws exactly when some `ErrorEquals` name is not a known code; without a throw the retrier holds exactly the decoded list |
| RetryHydrators.HydrateRetrierValue | src/hydrators/aws/RetryFieldHydrator.ts:62-76 | success appends one retrier holding the decoded list and configures the field; an empty list throws before any change; a later throw leaves the appended retrier |
| RetryHydrators.HydrateRetriers | src/hydrators/aws/RetryFieldHydrator.ts:62-76 | without a throw, one retrier per entry is appended after the old ones |
| RetryHydrators.ApplyAttribute | src/hydrators/aws/RetryFieldHydrator.ts:65-73 | the retrier object ends as `AttributeStep` says, a NaN stored as no number |
| RetryHydrators.Fill | src/hydrators/aws/RetryFieldHydrator.ts:65-75 | the retrier object and what is thrown are `FillRetrier`'s |
| RetryHydrators.HydrateRetrier | src/hydrators/aws/RetryFieldHydrator.ts:62-76 | the field object and what is thrown are `HydrateRetrierValue`'s; the list stays unshared |
| RetryHydrators.HydrateRetry | src/hydrators/aws/RetryFieldHydrator.ts:59-79 | the field object and what is thrown are the snapshot hydrator's |
| RetryHydrators.MissingRetryCreatesNothing | src/hydrators/aws/RetryFieldHydrator.ts:60-62 | a missing or `null` `Retry` leaves the field as it was |
| RetryHydrators.AttributeReadsDecimalText | src/hydrators/aws/RetryFieldHydrator.ts:65-73 | an attribute given as the decimal text of a number, negative ones included, is stored as that number |
| RetryHydrators.AttributesRoundTrip | src/hydrators/aws/RetryFieldHydrator.ts:24-31 | attributes written only when not null read back as the same attributes |
| RetryHydrators.ExtractLookups | src/hydrators/aws/RetryFieldHydrator.ts:16-36 | `ErrorEquals` holds the codes' names; each attribute is present exactly when not null |
| RetryHydrators.RetrierRoundTrip | src/hydrators/aws/RetryFieldHydrator.ts:16-76 | hydrating one extracted retrier appends it unchanged |
| RetryHydrators.RetriersRoundTrip | src/hydrators/aws/RetryFieldHydrator.ts:16-76 | hydrating the extract of a list of retriers appends them all, in order |
| RetryHydrators.RetryRoundTrip | src/hydrators/aws/RetryFieldHydrator.ts:16-79 | for retriers that each hold at least one code (an empty `ErrorEquals` makes the source throw on `ErrorEquals[0]`), a fresh field hydrated from the extract holds the same retriers, in order, and is configured exactly when there are any |
| RetryHydrators.UnknownNameThrows | src/hydrators/aws/RetryFieldHydrator.ts:52-54 | an unknown error name throws the unsupported-code error |
| StateValues.ErrorType | src/states/Fail.ts:12-14 | the error's name, or its class name when the name is empty |
| StateValues.FreshBody | src/states/Task.ts:12-19 | a new state's fields are those of its own class |
| StateValues.FieldErrors | src/states/State.ts:39-43 | at most one error per field |
| StateValues.FieldErrorsEmpty | src/states/State.ts:39-43 | no errors exactly when every field validates on its own |
| StateValues.BranchErrors | src/states/Parallel.ts:76-82 | no branch errors exactly when every branch has a start |
| StateValues.FreshPassErrors | src/states/Pass.ts:10-16 | a fresh Pass reports only its missing transition |
| StateValues.FreshFieldsValid | src/states/State.ts:39-43 | every fresh field but the transition validates; a fresh transition reports its missing configuration |
| StateValues.FreshTaskFieldErrors | src/states/Task.ts:12-19 | of a fresh Task's fields only the transition is missing |
| StateValues.FreshTaskErrors | src/states/Task.ts:30-36 | a fresh Task reports its missing transition, then its missing resource |
| StateValues.FreshWaitParallelErrors | src/states/Wait.ts:29-35 | a fresh Wait lacks transition then seconds; a fresh Parallel lacks transition then a branch |
| StateValues.StoreSeconds | src/states/Wait.ts:21-27 | refused exactly below 1, changing nothing; otherwise stored |
| StateValues.FailErrorType | src/states/Fail.ts:12-14 | throws exactly when no error is stored; otherwise the error type |
| StateValues.FailErrorMessage | src/states/Fail.ts:16-18 | throws exactly when no error is stored; otherwise the message |
| StateValues.AddToBranch | src/states/Parallel.ts:15-21 | appends the state; the first state added is the start and stays so |
| StateValues.AddAllKeepsStart | src/states/Parallel.ts:15-21 | adding states one by one keeps them in order and makes the first ever added the start |
| PassStates.Pass.constructor | src/states/Pass.ts:10-16 | four fresh fields owned by the state; the snapshot is a fresh Pass |
| PassStates.Pass.SetComment | src/states/State.ts:12-14 | replaces the comment only |
| TaskStates.Task.constructor | src/states/Task.ts:12-19 | fresh fields owned by the state; resource, heartbeat and timeout unset |
| TaskStates.Task.SetComment | src/states/State.ts:12-14 | replaces the comment only |
| TaskStates.Task.SetResource | src/states/Task.ts:21-24 | replaces the resource only |
| TaskStates.Task.SetHeartbeat | src/hydrators/aws/TaskStateHydrator.ts:22-24 | replaces the heartbeat only |
| TaskStates.Task.SetTimeout | src/hydrators/aws/TaskStateHydrator.ts:26-28 | replaces the timeout only |
| WaitStates.Wait.constructor | src/states/Wait.ts:8-12 | a fresh next field, seconds null |
| WaitStates.Wait.SetComment | src/states/State.ts:12-14 | replaces the comment only |
| WaitStates.Wait.SetSeconds | src/states/Wait.ts:21-27 | the new state is `StoreSeconds`'; a throw leaves the state unchanged |
| WaitStates.Wait.SetSecondsNotANumber | src/hydrators/aws/WaitStateHydrator.ts:13-16 | NaN is not below 1, so it is stored, reading back as no number |
| WaitStates.Wait.For | src/states/Wait.ts:14-16 | the same as `setSeconds` |
| SucceedStates.Succeed.constructor | src/hydrators/AWSStepFunctionsHydratorManager.ts:35-39 | a state with no fields |
| SucceedStates.Succeed.SetComment | src/states/State.ts:12-14 | replaces the comment only |
| FailStates.Fail.constructor | src/states/Fail.ts:4-5 | no fields and no error yet |
| FailStates.Fail.SetComment | src/states/State.ts:12-14 | replaces the comment only |
| FailStates.Fail.With | src/states/Fail.ts:7-10 | stores the error; the state then validates clean |
| ParallelStates.ParallelBranch.constructor | src/states/Parallel.ts:10-13 | an empty branch without start |
| ParallelStates.ParallelBranch.AddState | src/states/Parallel.ts:15-21 | the branch's new snapshot is `AddToBranch`'s |
| ParallelStates.BranchValues | src/states/Parallel.ts:66-68 | the snapshots of the branches, pointwise and in order |
| ParallelStates.Parallel.constructor | src/states/Parallel.ts:50-56 | no branches, fresh next, path and result-path fields |
| ParallelStates.Parallel.SetComment | src/states/State.ts:12-14 | replaces the comment only |
| ParallelStates.Parallel.AddBranch | src/states/Parallel.ts:58-64 | appends the given branch, or a fresh empty one, and returns it; nothing else changes |
| ChoiceRules.CreateOperatorAsWritten | src/states/Choice.ts:107-123 | as written, only OR makes a logic operator |
| ChoiceRules.CreateOperator | src/states/Choice.ts:107-123 | intended: exactly AND, OR and NOT make logic operators |
| ChoiceRules.AndNotMisclassified | src/states/Choice.ts:110-113 | AND and NOT come out as comparators as written; every other rule agrees with the intent |
| ChoiceRules.KeywordsDistinct | src/generators/StepFunctionsGenerator.ts:7-30 | no two rules share a keyword, and none is `Variable`, `Next` or `End` |
| ChoiceStates.FreshOperation | src/states/Choice.ts:62-65 | a new operation has the rule, no operands, no children and a fresh transition; it is a logic node exactly for a logic operator |
| ChoiceStates.ChoiceOperation.constructor | src/states/Choice.ts:62-65 | keeps the operator and gives a fresh next field |
| ChoiceStates.ChoiceOperation.SetValueOperand | src/states/Choice.ts:67-73 | refused on a logic operator, changing nothing; otherwise stores the value and nothing else |
| ChoiceStates.ChoiceOperation.SetVariableOperand | src/states/Choice.ts:75-82 | refused on a logic operator, changing nothing; otherwise stores the path and nothing else |
| ChoiceStates.Choice.constructor | src/states/Choice.ts:102-105 | no operations |
| ChoiceStates.Choice.SetComment | src/states/State.ts:12-14 | replaces the comment only |
| ChoiceStates.Choice.AddOperation | src/states/Choice.ts:125-130 | appends and returns a fresh operation whose operator is `CreateOperator(rule)` |
| StateMachines.TextOrNull | src/StateMachine.ts:20-22 | `x \|\| null`: kept exactly when truthy |
| StateMachines.NumberOrNull | src/StateMachine.ts:21 | `x \|\| null` on a number: kept exactly when non-zero |
| StateMachines.Names | src/StateMachine.ts:33-36 | the states' names, pointwise |
| StateMachines.IndexAppend | src/StateMachine.ts:32-47 | appending a state keeps the name index exact, whether the name is refused or indexed at the new length |
| StateMachines.AddedIndexPoints | src/StateMachine.ts:40-47 | after `addState` the state's name is indexed at a position holding a state of that name |
| StateMachines.IndexAdded | src/StateMachine.ts:32-47 | after an append the index, refused or extended, stays exact and points at a state of the appended name |
| StateMachines.PrototypeNameRefused | src/StateMachine.ts:32-38 | as written, `constructor` clashes even in an empty machine, while the intended test lets it through |
| StateMachines.IndexClashAgrees | src/StateMachine.ts:32-38 | outside inherited member names, the written and intended tests agree |
| StateMachines.StatesErrorsEmpty | src/StateMachine.ts:49-58 | the states report nothing exactly when each validates |
| StateMachines.ValidateMachine | src/StateMachine.ts:49-58 | no errors exactly when there is a state and every state validates; an empty machine reports exactly the no-state error |
| StateMachines.StateMachine.constructor | src/StateMachine.ts:17-25 | each option kept only when truthy; no states, no start, empty index |
| StateMachines.StateMachine.StartAt | src/StateMachine.ts:26-30 | records the state as start, added or not; nothing else changes |
| StateMachines.StateMachine.AddState | src/StateMachine.ts:40-47 | always appends; throws exactly on an indexed name, leaving index and start; otherwise indexes at the new length and starts with the first state; the index stays exact |
| StateMachines.StateMachine.IndexState | src/StateMachine.ts:32-38 | throws exactly for an indexed name, changing nothing; otherwise indexes it at the position |
| StateMachines.StateMachine.Validate | src/StateMachine.ts:49-58 | no errors exactly when there is a state and each validates |
| StateMachines.StateMachine.SetComment | src/hydrators/aws/StateMachineHydrator.ts:31-33 | sets the comment only |
| StateMachines.StateMachine.SetTimeout | src/hydrators/aws/StateMachineHydrator.ts:28-30 | sets the timeout only |
| StateMachines.StateMachine.SetTimeoutNotANumber | src/hydrators/aws/StateMachineHydrator.ts:28-30 | `setTimeout(NaN)` leaves no number and changes nothing else |
| StateMachines.StateMachine.SetVersion | src/hydrators/aws/StateMachineHydrator.ts:34-36 | sets the version only |
| StateMachines.StateMachine.SetStartState | src/hydrators/aws/StateMachineHydrator.ts:37-39 | sets the start name only |
| Helpers.Autolinked | src/helpers.ts:4-22 | one state out per state in |
| Helpers.LinkShape | src/helpers.ts:6-21 | linking keeps name and kind and leaves the transition configured |
| Helpers.AutolinkChains | src/helpers.ts:4-22 | each unconfigured transition points at the next state, the last is ended, configured ones are untouched, and all end configured |
| Helpers.AutolinkSkipsTerminalKinds | src/helpers.ts:8-9 | states without a next field come out unchanged |
| Helpers.AutolinkIdempotent | src/helpers.ts:4-22 | running the helper twice is the same as once |
| Helpers.AutolinkedPassValidates | test/helpers.test.ts:17-23 | a machine of one fresh Pass validates clean after the helper |
| Helpers.AutolinkIsNextChange | src/helpers.ts:4-22 | the helper changes a state only in its next field, as computed from the next fields and names alone |
| Helpers.LinkField | src/helpers.ts:8-11 | an unconfigured next field is set to the target; a configured one is untouched |
| Helpers.EndField | src/helpers.ts:16-21 | an unconfigured next field is ended; a configured one is untouched |
| Helpers.StatesAutolink | src/helpers.ts:4-22 | the next fields of the machine's states end as `NextsAutolinked` of their old values and the state names |
| Json.Put | src/generators/StepFunctionsGenerator.ts:47-50 | a property write: the key then holds the value; a new key is created last |
| Json.LookupPutOther | src/generators/StepFunctionsGenerator.ts:47-50 | a write leaves every other key |
| Json.LookupAssign | src/generators/StepFunctionsGenerator.ts:234-237 | `Object.assign`: the source's keys win, the target's other keys stay |
| Json.LookupAssignAbsent | src/generators/StepFunctionsGenerator.ts:234-237 | a key the source lacks keeps the target's value |
| Json.AssignFresh | src/generators/StepFunctionsGenerator.ts:47-50 | assigning members whose keys are all new appends them, in creation order |
| Json.LookupMember | src/generators/StepFunctionsGenerator.ts:47-50 | every member of a distinct-key object is found under its key |
| PropertyOrder.KeyOrderDistinct | src/hydrators/aws/ParallelStateHydrator.ts:26 | `Object.keys` never lists a key twice |
| PropertyOrder.KeyOrderCovers | src/hydrators/aws/ParallelStateHydrator.ts:26 | `Object.keys` lists every key |
| PropertyOrder.IndexKeysFirst | src/hydrators/aws/ParallelStateHydrator.ts:26 | exactly the first `IndexCount` keys listed are array indices |
| PropertyOrder.IndexKeysAscend | src/hydrators/aws/ParallelStateHydrator.ts:26 | the array-index keys are listed in ascending numeric order |
| PropertyOrder.NamesKeepCreationOrder | src/hydrators/aws/ParallelStateHydrator.ts:26 | the other keys are listed in creation order |
| PropertyOrder.PlainKeysInOrder | src/hydrators/aws/StateMachineHydrator.ts:40 | without array-index keys the listing is the creation order |
| PropertyOrder.PlainMembersInOrder | src/hydrators/aws/StateMachineHydrator.ts:40 | without array-index keys the members are enumerated as they are held |
| PropertyOrder.EnumeratedKeys | src/hydrators/aws/StateMachineHydrator.ts:40 | the keys of the enumerated members are the listed keys |
| PropertyOrder.EnumeratedDistinct | src/hydrators/aws/StateMachineHydrator.ts:40 | enumerating an object with distinct keys keeps them distinct |
| PropertyOrder.SingleMemberEnumerated | src/hydrators/aws/ParallelStateHydrator.ts:26 | an object with one key lists it |
| PropertyOrder.IndexKeyListedFirst | src/hydrators/aws/ParallelStateHydrator.ts:26 | `{b, 1}` is listed as `1`, then `b` |
| Generator.KeyOutside | src/generators/StepFunctionsGenerator.ts:53-120 | a key outside an encoder's key set is absent from its output |
| Generator.GenerateNext | src/generators/StepFunctionsGenerator.ts:53-61 | nothing when locked; `End: true` when ending; otherwise `Next` with the target |
| Generator.GeneratePath | src/generators/StepFunctionsGenerator.ts:62-72 | each path written exactly when it is a non-empty string |
| Generator.PutSet | src/generators/StepFunctionsGenerator.ts:90-101 | an attribute assigned exactly when not null |
| Generator.RetrierMembers | src/generators/StepFunctionsGenerator.ts:86-103 | ErrorEquals is the given list; each attribute is present exactly when not null, with its value |
| Generator.OrdinalCodes | src/generators/StepFunctionsGenerator.ts:88 | the generator writes each code as its enum number |
| Generator.NamedCodes | src/hydrators/aws/RetryFieldHydrator.ts:20-22 | each code under its `States.*` name |
| Generator.RetryCodesAsWrittenAreNumbers | src/generators/StepFunctionsGenerator.ts:88 | as written, `ErrorEquals` differs from the named form and a reader rejects its first entry, which the named form decodes |
| Generator.GenerateCatcher | src/generators/StepFunctionsGenerator.ts:109-118 | the names, the catcher's End or Next, and ResultPath exactly when that field is configured |
| Generator.CatchEntries | src/generators/StepFunctionsGenerator.ts:107-120 | one object per catcher, in order |
| Generator.GenerateField | src/generators/StepFunctionsGenerator.ts:53-120 | a field writes distinct keys, all among the field keys |
| Generator.AssignFieldsKeeps | src/generators/StepFunctionsGenerator.ts:233-237 | merging fields never touches a key that no field writes, such as `Type` |
| Generator.GenerateChoiceOperation | src/generators/StepFunctionsGenerator.ts:161-184 | succeeds exactly for encodable trees; otherwise the undefined-access error |
| Generator.GenerateChoiceList | src/generators/StepFunctionsGenerator.ts:191-193 | succeeds exactly when every node encodes; one object per node |
| Generator.ComparatorOperands | src/generators/StepFunctionsGenerator.ts:173-181 | a comparator keeps Variable and its keyword's value whatever transition is merged after them |
| Generator.LogicOperands | src/generators/StepFunctionsGenerator.ts:163-172 | the operation's object holds, under the rule's keyword, its first operand's object for NOT and the list of its operands' objects for AND and OR, whether or not it also carries a `Next`; without a `Next` that is its only key |
| Generator.GenerateChoice | src/generators/StepFunctionsGenerator.ts:186-200 | succeeds exactly when every choice encodes; Default written exactly when set |
| Generator.TaskBaseKeys | src/generators/StepFunctionsGenerator.ts:208-223 | Resource, and HeartbeatSeconds and TimeoutSeconds exactly when not null |
| Generator.GenerateState | src/generators/StepFunctionsGenerator.ts:225-242 | a base error is thrown first; then validation's first error; success only for a valid state |
| Generator.GenerateBranches | src/generators/StepFunctionsGenerator.ts:149-157 | one object per branch |
| Generator.StatesAssignEntries | src/generators/StepFunctionsGenerator.ts:47-50 | when every state encodes, the `reduce` assigns one entry per state |
| Generator.StatesKeyedInOrder | src/generators/StepFunctionsGenerator.ts:47-50 | distinct, encodable states give one key per state, held in the order the states were added, each holding its encoding |
| Generator.StatesFailWithState | src/generators/StepFunctionsGenerator.ts:47-50 | one state failing fails the `States` object |
| Generator.GeneratedType | src/generators/StepFunctionsGenerator.ts:225-242 | a generated state carries its class name under `Type` |
| Generator.TaskOptionalKeys | src/generators/StepFunctionsGenerator.ts:208-242 | a generated Task has its resource, and its heartbeat and timeout exactly when set |
| Generator.MachineObjectKeys | src/generators/StepFunctionsGenerator.ts:33-52 | StartAt and States always; Comment, TimeoutSeconds and Version exactly when truthy |
| Generator.GenerateMachine | src/generators/StepFunctionsGenerator.ts:33-52 | a machine without a start throws on reading it |
| Generator.MachineShape | src/generators/StepFunctionsGenerator.ts:33-52 | a machine with a start and distinct, encodable states gives the StartAt/States/options object, with States holding the names in the order the states were added |
| Generator.MachineFailsWithState | src/generators/StepFunctionsGenerator.ts:47-50 | a machine fails as soon as one of its states does |
| Generator.EndedPassValid | test/generator.test.ts:30-38 | `new Pass(n).next.end()` validates clean |
| Generator.PassEndShape | test/generator.test.ts:30-38 | `new Pass(n).next.end()` encodes to `{Type: "Pass", End: true}` |
| Generator.EndedPassFields | test/generator.test.ts:30-38 | of an ended Pass only `End: true` is merged after `Type` |
| StateExtractors.ExtractTask | src/hydrators/aws/TaskStateHydrator.ts:7-19 | Resource, and HeartbeatSeconds and TimeoutSeconds exactly when not null; `Type` in front gives the generator's Task base |
| StateExtractors.ExtractFail | src/hydrators/aws/FailStateHydrator.ts:7-14 | throws exactly without an error; otherwise Error is the type and Cause the message |
| StateExtractors.ExtractState | src/hydrators/AWSStepFunctionsHydratorManager.ts:85-98 | throws exactly when the variant's extract does; `Type` is the class name, and `Comment` is present when truthy |
| StateExtractors.ExtractKeeps | src/hydrators/AWSStepFunctionsHydratorManager.ts:85-98 | what the variant writes under a key no field writes survives |
| StateExtractors.ExtractBranch | src/hydrators/aws/ParallelStateHydrator.ts:11-19 | a branch without a start throws on reading it |
| StateExtractors.ExtractBranches | src/hydrators/aws/ParallelStateHydrator.ts:9-21 | one object per branch, or the first branch's error |
| StateExtractors.ExtractDoesNotValidate | src/hydrators/AWSStepFunctionsHydratorManager.ts:85-98 | a fresh Task extracts to `{Type: "Task"}`, which the generator refuses |
| StateExtractors.NothingConfigured | src/hydrators/AWSStepFunctionsHydratorManager.ts:108-114 | unconfigured fields merge nothing |
| StateExtractors.WaitExtractShape | test/hydrators-manager.test.ts:13-23 | a Wait with seconds `s` extracts to `{Seconds: s, Type: "Wait"}` |
| StateExtractors.EndedTaskFields | src/hydrators/AWSStepFunctionsHydratorManager.ts:108-114 | of an ended Task with nothing else configured only `End` is extracted |
| StateExtractors.TaskExtractShape | test/hydrators-manager.test.ts:24-34 | an ended Task with resource `xy` extracts to `{Resource: "xy", End: true, Type: "Task"}` |
| StateExtractors.MachineExtractLayout | src/hydrators/aws/StateMachineHydrator.ts:7-26 | with a start, the extract has the generator's layout around the extracted States |
| StateHydrators.RegistryComplete | src/hydrators/AWSStepFunctionsHydratorManager.ts:19-55 | seven entries, every class, pairwise distinct type names |
| StateHydrators.KindNamed | src/hydrators/AWSStepFunctionsHydratorManager.ts:189-205 | the class found has that type name; none found only when no class has it, with the unknown-type error |
| StateHydrators.TypeNamesBijective | src/hydrators/AWSStepFunctionsHydratorManager.ts:19-55 | type names and classes correspond one to one, and each name finds its class |
| StateHydrators.FieldEntryFrom | src/hydrators/AWSStepFunctionsHydratorManager.ts:153-169 | the first matching entry from `i` on, or the missing-hydrator error when none matches |
| StateHydrators.FieldEntryFindsOwn | src/hydrators/AWSStepFunctionsHydratorManager.ts:57-82 | every field class is registered exactly once, so the lookup never throws |
| StateHydrators.NumberAt | src/hydrators/aws/TaskStateHydrator.ts:22-28 | a falsy slot keeps the current value; a truthy number is taken; anything else is ill-typed |
| StateHydrators.ResourceAt | src/hydrators/aws/TaskStateHydrator.ts:30 | an absent Resource clears the resource; a set resource is the string read |
| StateHydrators.HydrateTaskValue | src/hydrators/aws/TaskStateHydrator.ts:20-33 | only resource, heartbeat and timeout change; success exactly when each read succeeds, with those values |
| StateHydrators.TaskRoundTrip | src/hydrators/aws/TaskStateHydrator.ts:7-33 | a Task's extract gives back its resource, heartbeat and timeout, except a heartbeat or timeout of 0 |
| StateHydrators.HydrateWaitValue | src/hydrators/aws/WaitStateHydrator.ts:13-16 | throws exactly when `parseInt` of `Seconds` reads a number below 1; otherwise stores what it reads, no number for a missing key or NaN |
| StateHydrators.WaitRoundTrip | src/hydrators/aws/WaitStateHydrator.ts:7-16 | unset seconds, or seconds of at least 1, round-trip |
| StateHydrators.HydrateFailValue | src/hydrators/aws/FailStateHydrator.ts:15-20 | success exactly when Error and Cause read; the stored error has those; the state then validates |
| StateHydrators.FailWireRoundTrip | src/hydrators/aws/FailStateHydrator.ts:7-20 | `{Error: e, Cause: c}` with non-empty `e` extracts back unchanged |
| StateHydrators.FailEmptyNameBecomesClass | src/states/Fail.ts:12-14 | an empty Error name comes back as `Error` |
| StateHydrators.FailRoundTrip | src/hydrators/aws/FailStateHydrator.ts:7-20 | a Fail whose error has a type extracts the same after hydrating |
| StateHydrators.HydratePassValue | src/hydrators/AWSStepFunctionsHydratorManager.ts:115-120 | path, result path, result and next are hydrated in that order, each by its own hydrator |
| StateHydrators.HydrateStateValue | src/hydrators/AWSStepFunctionsHydratorManager.ts:122-127 | an unknown or unreadable `Type` throws before a state exists; success gives a state of the named class and name |
| StateHydrators.HydrateParallelValue | src/hydrators/aws/ParallelStateHydrator.ts:22-34 | a missing `Branches` throws; success appends one branch per entry and changes nothing else |
| StateHydrators.HydrateBranches | src/hydrators/aws/ParallelStateHydrator.ts:24-31 | one well-formed branch per remaining entry |
| StateHydrators.HydrateBranch | src/hydrators/aws/ParallelStateHydrator.ts:25-30 | one state per key of `States`, named after the key, in `Object.keys` order; the first key listed is the start |
| StateHydrators.IndexNamedStateFirst | src/hydrators/aws/ParallelStateHydrator.ts:25-30 | a branch with states `b` then `1` is walked from `1`, which becomes its start |
| StateHydrators.NewBranch | src/states/Parallel.ts:15-25 | a branch fresh from `addBranch()` after `addState` of each state: well formed and holding exactly those states |
| StateHydrators.HydrateStatesFrom | src/hydrators/aws/ParallelStateHydrator.ts:26-30 | one state per remaining key in `Object.keys` order, named after it |
| StateHydrators.ManagerFindsClass | src/hydrators/AWSStepFunctionsHydratorManager.ts:85-127 | an extracted state's `Type` leads back to its own class |
| StateHydrators.WaitStateRoundTrip | src/hydrators/AWSStepFunctionsHydratorManager.ts:85-127 | through the manager, a Wait comes back with its seconds |
| StateHydrators.TaskStateRoundTrip | src/hydrators/AWSStepFunctionsHydratorManager.ts:85-127 | through the manager, a Task comes back with resource, heartbeat and timeout, except 0s |
| StateHydrators.FailStateRoundTrip | src/hydrators/AWSStepFunctionsHydratorManager.ts:85-127 | through the manager, a Fail with a typed error extracts the same |
| StateHydrators.StartAtNeverRead | src/hydrators/aws/ParallelStateHydrator.ts:22-34 | a branch's StartAt has no effect on what is hydrated |
| StateHydrators.BranchStateFails | src/hydrators/aws/ParallelStateHydrator.ts:26-30 | one state that cannot be hydrated fails its branch |
| StateHydrators.LoneStateFails | src/hydrators/aws/ParallelStateHydrator.ts:25-30 | a branch whose only state cannot be hydrated throws |
| StateHydrators.LoneBranchFails | src/hydrators/aws/ParallelStateHydrator.ts:24-31 | a Parallel whose only branch throws throws |
| StateHydrators.NestedUnknownTypeFails | src/hydrators/AWSStepFunctionsHydratorManager.ts:189-205 | an unknown nested state type fails the Parallel |
| StateHydratorMethods.FindRegistry | src/hydrators/AWSStepFunctionsHydratorManager.ts:189-205 | the walk returns `KindNamed`'s answer |
| StateHydratorMethods.HydrateTask | src/hydrators/aws/TaskStateHydrator.ts:20-33 | a Task object and what is thrown are `HydrateTaskValue`'s, setters made before a throw included |
| StateHydrators.ParsedSeconds | src/hydrators/aws/WaitStateHydrator.ts:14 | a missing `Seconds` reads as NaN; a present one is read by `parseInt` |
| StateHydrators.WaitReadsDecimalText | src/hydrators/aws/WaitStateHydrator.ts:13-16 | `Seconds` given as the decimal text of a number is refused below 1 and otherwise stored as that number |
| StateHydratorMethods.HydrateWait | src/hydrators/aws/WaitStateHydrator.ts:13-16 | the Wait object ends as `HydrateWaitValue` says; a throw leaves it unchanged |
| StateHydratorMethods.HydrateFail | src/hydrators/aws/FailStateHydrator.ts:15-20 | the Fail object ends as `HydrateFailValue` says |
| StateHydratorMethods.HydratePass | src/hydrators/aws/PassStateHydrator.ts:13-16 | the Pass object and what is thrown are `HydratePassValue`'s |
| StateHydratorMethods.HydrateState | src/hydrators/AWSStepFunctionsHydratorManager.ts:122-127 | a valid object whose snapshot is `HydrateStateValue`'s, or its error |
| StateHydratorMethods.HydrateParallel | src/hydrators/aws/ParallelStateHydrator.ts:22-34 | the Parallel object ends as `HydrateParallelValue` says, or the same error is thrown |
| StateHydratorMethods.BuildPass | src/hydrators/AWSStepFunctionsHydratorManager.ts:122-127 | a new Pass of that name hydrated from the data: a valid object whose snapshot is the value hydrator's result, or the same error |
| StateHydratorMethods.BuildTask | src/hydrators/AWSStepFunctionsHydratorManager.ts:122-127 | the same for a new Task |
| StateHydratorMethods.BuildWait | src/hydrators/AWSStepFunctionsHydratorManager.ts:122-127 | the same for a new Wait |
| StateHydratorMethods.BuildFail | src/hydrators/AWSStepFunctionsHydratorManager.ts:122-127 | the same for a new Fail |
| StateHydratorMethods.BuildParallel | src/hydrators/AWSStepFunctionsHydratorManager.ts:122-127 | the same for a new Parallel |
| StateHydratorMethods.HydrateBranchInto | src/hydrators/aws/ParallelStateHydrator.ts:25-30 | an empty branch ends as `HydrateBranch` says, or the same error is thrown |
| StateHydratorMethods.AddBranches | src/hydrators/aws/ParallelStateHydrator.ts:24-31 | the branches become the old ones followed by `HydrateBranches`' |
| StateHydratorMethods.HydrateStatesInto | src/hydrators/aws/ParallelStateHydrator.ts:26-30 | the branch receives exactly the states `HydrateStatesFrom` gives |
| CatchHydrators.HydrateCatcherValue | src/hydrators/aws/CatchFieldHydrator.ts:30-34 | bad names throw before any change; otherwise a catcher holding the names is appended before its fields are hydrated |
| CatchHydrators.FillCatcher | src/hydrators/aws/CatchFieldHydrator.ts:32-33 | hydrating a catcher's next and result-path fields never changes its error names |
| CatchHydrators.HydrateCatchers | src/hydrators/aws/CatchFieldHydrator.ts:30-34 | without a throw, one catcher per entry is appended after the old ones |
| CatchHydrators.HydrateCatchValue | src/hydrators/aws/CatchFieldHydrator.ts:26-37 | a missing or `null` `Catch` throws and changes nothing; an empty list changes nothing |
| CatchHydrators.FillCatcherObject | src/hydrators/aws/CatchFieldHydrator.ts:32-33 | the catcher object and what is thrown are `FillCatcher`'s |
| CatchHydrators.HydrateCatcher | src/hydrators/aws/CatchFieldHydrator.ts:30-34 | the field object and what is thrown are `HydrateCatcherValue`'s |
| CatchHydrators.HydrateCatch | src/hydrators/aws/CatchFieldHydrator.ts:26-37 | the field object and what is thrown are `HydrateCatchValue`'s |
| CatchHydrators.CatcherResultPathRoundTrip | src/hydrators/aws/CatchFieldHydrator.ts:18-20 | a catcher's result path reads back configured as before, with the same encoding |
| CatchHydrators.CatcherNextRoundTrip | src/hydrators/aws/CatchFieldHydrator.ts:9-24 | a catcher's End or Next reads back into a fresh next field with the same encoding |
| CatchHydrators.CatcherRoundTrip | src/hydrators/aws/CatchFieldHydrator.ts:9-37 | one extracted catcher appends its rebuilt catcher without a throw |
| CatchHydrators.RebuiltExtractsSame | src/hydrators/aws/CatchFieldHydrator.ts:9-24 | the rebuilt catcher extracts the same |
| CatchHydrators.CatchersRoundTrip | src/hydrators/aws/CatchFieldHydrator.ts:9-37 | restorable catchers' extracts append one rebuilt catcher each, in order |
| CatchHydrators.CatchRoundTrip | src/hydrators/aws/CatchFieldHydrator.ts:9-37 | a fresh field hydrated from the `Catch` extract extracts the same list |
| MachineHydrator.AddStateValue | src/StateMachine.ts:40-47 | `addState` on a snapshot: the state appended; a clash throws and keeps index and start |
| MachineHydrator.AddStateKeepsIndex | src/StateMachine.ts:32-47 | `addState` keeps the name index exact, thrown or not |
| MachineHydrator.HydratedStates | src/hydrators/aws/StateMachineHydrator.ts:40-44 | each given member of `States` decoded under its key, in the order given |
| MachineHydrator.AddStatesValue | src/hydrators/aws/StateMachineHydrator.ts:40-44 | the walk keeps the options and only appends states |
| MachineHydrator.AddStatesKeepsIndex | src/hydrators/aws/StateMachineHydrator.ts:40-44 | walking the states keeps the index exact |
| MachineHydrator.AddStatesAppends | src/hydrators/aws/StateMachineHydrator.ts:40-44 | a walk without a throw appends exactly the hydrated states, in order |
| MachineHydrator.FirstAddedStarts | src/StateMachine.ts:43-45 | without a prior start, the first state added becomes the start |
| MachineHydrator.AddedStatesNamed | src/hydrators/aws/StateMachineHydrator.ts:40-44 | a walk without a throw over members in a given order adds one state per key, named after it, in that order |
| MachineHydrator.WalkInListedOrder | src/hydrators/aws/StateMachineHydrator.ts:40-44 | a walk without a throw adds the names in `Object.keys` order; without a prior start, the first name listed becomes the start |
| MachineHydrator.AddStatesNoThrow | src/hydrators/aws/StateMachineHydrator.ts:40-44 | a walk over states that all hydrate, with distinct names not yet indexed, does not throw |
| MachineHydrator.TimeoutStep | src/hydrators/aws/StateMachineHydrator.ts:28-30 | a falsy `TimeoutSeconds` keeps the timeout; a truthy one is replaced by what `parseInt` reads from it, no number for NaN |
| MachineHydrator.TextStep | src/hydrators/aws/StateMachineHydrator.ts:31-39 | a falsy option is kept; a truthy string is set; anything else is ill-typed |
| MachineHydrator.HydrateOptions | src/hydrators/aws/StateMachineHydrator.ts:28-39 | timeout, comment, version and start set in that order; the states untouched |
| MachineHydrator.HydrateMachineValue | src/hydrators/aws/StateMachineHydrator.ts:27-46 | options, then the walk over `States` in `Object.keys` order; `null` data and missing `States` throw as `Object.keys` and reads do |
| MachineHydrator.HydrateWithStates | src/hydrators/aws/StateMachineHydrator.ts:27-46 | with options that do not throw and an object `States`, the hydrate is the walk over its members in `Object.keys` order |
| MachineHydrator.HydrateKeepsIndex | src/hydrators/aws/StateMachineHydrator.ts:27-46 | hydrating keeps the name index exact, thrown or not |
| MachineHydrator.ExtractedMachineOptions | src/hydrators/aws/StateMachineHydrator.ts:7-39 | an extracted machine's options hydrate into an empty one as their truthy values |
| MachineHydrator.MachineRoundTrip | src/hydrators/aws/StateMachineHydrator.ts:7-46 | when nothing throws, hydrating the extract gives back the truthy options, the state names in `Object.keys` order and the start (else the first name listed) |
| MachineHydrator.MachineRoundTripInOrder | src/hydrators/aws/StateMachineHydrator.ts:7-46 | with no state name an array index, the names come back in the order the states were added, and the first state is the start when none was set |
| MachineHydrator.ExtractHydratesAsWalk | src/hydrators/aws/StateMachineHydrator.ts:7-46 | hydrating an extract sets the truthy options, then walks the extracted states in `Object.keys` order |
| MachineHydrator.MachineHydratesExtract | src/hydrators/aws/StateMachineHydrator.ts:7-46 | hydrating the extract of distinctly named states does not throw when each member written under `States` hydrates on its own |
| MachineHydrator.ExtractedKeysDistinct | src/hydrators/aws/StateMachineHydrator.ts:19-22 | distinctly named states are written under distinct keys |
| MachineHydrator.ListedStatesHydrate | src/hydrators/aws/StateMachineHydrator.ts:40-44 | members with distinct keys that each hydrate give, in `Object.keys` order, states that all hydrate under distinct names |
| MachineHydrator.StartAtWins | src/hydrators/aws/StateMachineHydrator.ts:37-44 | a truthy string StartAt is the start whatever the order of the keys of States |
| MachineHydrator.HydrateMachineOptions | src/hydrators/aws/StateMachineHydrator.ts:28-39 | the machine's options end as `HydrateOptions` says; states and index unchanged |
| MachineHydrator.HydrateMachine | src/hydrators/aws/StateMachineHydrator.ts:27-46 | the machine object mirrors `HydrateMachineValue` (options, start, index, state names) and keeps its index exact |

## Left out

- Event emitters (`before::generate::…`), `console.log` and the class-name dispatch of `AbstractGenerator` are not modelled. The generator and hydrators dispatch with a closed match on the state kind.
- `getFields` and `getRelatedFields` find fields by reflecting over object properties. The model uses each class's field list in constructor order.
- `ResultField.get`'s JSON deep copy is the identity, because JSON values have no identity in the model.
- The Retry, Wait and state-machine hydrators read numbers with `parseInt` and no radix, modelled in `ParseInts` after section 19.2.5 of ECMA-262. Numbers in the model are integers, so a fractional `BackoffRate` is not represented. A JSON number is read as itself: no precision is lost beyond 2^53, and the exponent form `String` uses for magnitudes of 10^21 and more is not modelled.
- The model has no NaN. A NaN that `parseInt` reads is held as "no number", the same as an unset value.
- The Task hydrator stores `HeartbeatSeconds` and `TimeoutSeconds` without `parseInt`. A value there that is not a number fails as `IllTyped`.
- Wire values of the wrong type fail as `IllTyped`, where JavaScript would store them or coerce them. Examples are a number where a string is read, or a non-array `ErrorEquals`.
- `StateMachine.dump` and `State.dump`/`Pass.dump` are not modelled. `State.dump` is not defined in `src/states/State.ts`, and the generator and the machine hydrator's `extract` cover the encoding.
- `ParallelBranch.autoNextSetup` calls `linkStates`, which is not defined in `src/utils.ts`, so it is not modelled.
- The Choice and Succeed state hydrators are stubs. They are modelled as such: `hydrate` returns the fresh state unchanged, and `extract` writes nothing beyond the fields every state writes.
- The Choice state's `default` has no setter in the source, so the model never holds one.
- `ParallelStates.ParallelBranch.AddState` stores a snapshot of the state. Later changes to a state object after it is added to a branch are not reflected in the branch.
- `Helpers.StatesAutolink` requires that each state's next field accepts `set` and `end` and that no two states share one. Every state class builds its fields that way, but the source itself does not check it. One case breaks it: a refused duplicate `addState(s)` still appends `s` (`src/StateMachine.ts:40-42`). After a caught throw the list holds the same object twice, so two entries share one next field. The requirement excludes that list. On it, `statesAutolink` (`src/helpers.ts:6-14`) would link the state to itself.
- `MachineHydrator.MachineRoundTrip` concludes only when the hydrate does not throw. `MachineHydrator.MachineHydratesExtract` gives a sufficient condition: each member written under `States` hydrates on its own. It does not derive that from the states themselves.
- `MachineHydrator.MachineRoundTrip` compares the hydrated states with the originals by name only. Each state's content is covered by the per-state round trips (`StateHydrators.WaitStateRoundTrip`, `TaskStateRoundTrip`, `FailStateRoundTrip`) and the field round trips.
- `StateHydrators.TaskRoundTrip`, `StateHydrators.TaskStateRoundTrip`: a heartbeat or timeout of 0 is excluded. It is written, but read back as falsy and skipped.
- `FieldHydrators.NextModelRoundTrip`: a field with the empty target is excluded. `Next: ""` is falsy and is not read back.
- `Json.Put`, `Json.AssignFresh`: state the member list, which holds keys in creation order. They do not give the order `JSON.stringify` writes, which lists array-index keys first, as `PropertyOrder.Enumerated` does.
- `Generator.StatesKeyedInOrder`: states the `States` member list, which holds the names in the order the states were added. `JSON.stringify` writes state names that are array indices (`"1"`, `"42"`) first, in ascending order, as `PropertyOrder.Enumerated` gives. The model does not pass the generated document through that order.
- `Generator.MachineShape`: the same holds for its `States` member.
- `Json.Assign` copies the source's members in the order of its list, whereas `Object.assign` copies them in enumeration order. They agree when no source key is an array index (`PropertyOrder.PlainMembersInOrder`), which holds for every source merged in the core: field keys and `Type`.
- `Generator.GenerateBranches`: states only that there is one object per branch. Each branch's content is `GenerateBranch`, stated through `GenerateState`.
- `StateExtractors.ExtractBranches` states only that there is one object per branch, for the same reason.
- A Task's `resource is not required` message, and every other error text, is a `Failure` tag, not a string.

## Findings

| source | as written | input that shows it | evidently intended | confidence | as-written member | corrected member |
|---|---|---|---|---|---|---|
| src/states/Choice.ts:110-113 | `case AND, NOT, OR:` is one label whose comma expression evaluates to `OR` | `addOperation(AND)` builds a comparator operator, which then accepts `setValueOperand` | AND, OR and NOT all build logic operators | high, not executed | ChoiceRules.CreateOperatorAsWritten, ChoiceRules.AndNotMisclassified | ChoiceRules.CreateOperator, used by ChoiceStates.Choice.AddOperation |
| src/generators/StepFunctionsGenerator.ts:88 | `ErrorEquals: retrier.getErrorTypes()` writes the enum numbers | `task.retry.timeout()` is encoded as `ErrorEquals: [0]`, which the Retry hydrator's `findErrorCode` rejects | the `States.*` names, as the Retry hydrator's `extract` writes them | high, not executed | Generator.GenerateRetrierAsWritten, Generator.RetryCodesAsWrittenAreNumbers | Generator.GenerateRetrier, with RetryHydrators.ExtractAgreesWithGenerator and RetryHydrators.RetryRoundTrip |
| src/StateMachine.ts:32-38 | the clash test reads `_state_index[name]` on a plain object, so inherited members such as `constructor` are truthy | `addState(new Pass("constructor"))` on an empty machine throws `already indexed` | only names already added clash | medium, not executed | StateMachines.IndexClashAsWritten, StateMachines.PrototypeNameRefused | StateMachines.IndexClash, used by StateMachines.StateMachine.AddState |
| src/fields/CatchField.ts:24-26, 53-55 | `getErrors` and `getCatchers` use `splice(0)`, which empties the list they return | generating or extracting a Task with one catcher twice: the second `Catch` is `[]`, and the first pass already leaves the field empty | a copy (`slice(0)`), as `getRetries` and `getBranches` return | high, not executed | CatchFields.CatchField.GetCatchers, CatchFields.ErrorCatcher.GetErrors, CatchFields.DrainingGetCatchers | CatchFields.CopyingCatchers; Generator.GenerateCatch and CatchHydrators.CatchRoundTrip read the catchers as a copy |
