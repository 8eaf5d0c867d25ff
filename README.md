# Octcode and ErrorCoder, modelled in Dafny

This project models the two objects in the `octcode` package.

- **Octcode** (`lib/octcode.js`) groups error messages into buckets, one per status code.
  - For each bucket it keeps a running signature. The first add sets the bit and the sum to 1. Each later add shifts the bit left by one and adds it to the sum.
  - `add(status, message)` pushes the message (or `unknown error`). It returns the code `namespace + status + sum` and the messages joined by the delimiter.
  - Moving to another status saves the live bucket in a history map. A later add to a saved status resumes that bucket.
  - `get(status)` reads the live bucket or a saved one, or returns an error.
- **ErrorCoder** (`lib/error-coder.js`) has a table of message templates per status and a current status. It keeps a log of errors grouped by status.
  - `setStatus` and `add` throw `status code is required` on a falsy argument.
  - `add(errorCode, ...args)` looks up a template and composes the code `namespace + status + errorCode`. It appends one record to the group of the current status.

The project has these modules:

- `Wrappers`: `Option` and `Result`.
- `Text`: JavaScript's decimal rendering of integers and `Array.prototype.join`, each with a round-trip or append law.
- `BucketSignature`: the signature rule on one bucket and on a map of buckets, with the rule's closed form.
  - `<<` is 32-bit: `ToInt32(ToInt32(b) * 2)`. The sum is `2^n - 1` for n ≤ 31 adds.
  - At n = 32 the bit becomes `-2^31` and the sum becomes `-1`.
  - At n = 33 the bit becomes 0 and the sum stays `-1`. The next add starts over at 1.
- `Octcode`: the object's state as a value `State`, with every operation as a transition. The class `Accumulator` has the same fields, and its methods are proved to perform those transitions.
- `ErrorCoding`: the same split for the ErrorCoder (`Coder`, `AddToLog`, class `ErrorCoder`). It also gives a reference definition of what a chain of calls logs.

Octcode shares JavaScript arrays. A saved history entry and the live state can hold the same `messages` array, so a push through one shows through the other. The model keeps the arrays in a store `lists` and refers to them by index, so this sharing is part of the model.

A status that may be omitted is an `Option<int>`, with `None` for `undefined`. A thrown `Error` becomes an `Err` result.

The model follows the code where it and the package's tests or documentation disagree:

- The history map may keep an entry for the current status.
- `add` with no status does not fail, though `test/octcode.specs.js:62-70` expects it to throw. It saves the live bucket and starts a fresh bucket 0 whose code reads `undefined`.
- The default delimiter is `,`. The test at `test/octcode.specs.js:29-39` expects a newline.

## Model

| member | source | states |
|---|---|---|
| Text.NatToStringRoundTrip | lib/octcode.js:62 | reading back the decimal digits that number-to-string concatenation writes gives the number |
| Text.IntToStringRoundTrip | lib/octcode.js:62 | the rendering of any integer, including the sign of a negative sum, reads back to the same integer |
| Text.JoinSnoc | lib/octcode.js:61-62 | joining after a push is the old join, the delimiter, then the new message (only the message when the array was empty) |
| BucketSignature.ToInt32 | lib/octcode.js:57 | the result is a signed 32-bit value congruent to the input modulo 2^32, and the identity on that range |
| BucketSignature.ShiftLeft1 | lib/octcode.js:57 | `bit << 1` stays in the signed 32-bit range and doubles any bit below 2^30 |
| BucketSignature.MessageOrDefault | lib/octcode.js:61 | the pushed text is the given message when it is non-empty, and the default `unknown error` of `lib/octcode.js:4` when the message is omitted or empty |
| BucketSignature.BucketAdd | lib/octcode.js:52-61 | an add appends exactly the pushed message to the bucket's messages |
| BucketSignature.ReplayConcat | lib/octcode.js:52-61 | adds to one bucket compose: replaying two runs equals replaying their concatenation |
| BucketSignature.BucketAddStep | lib/octcode.js:52-60 | one add moves bit and sum from the closed form at n adds to the closed form at n+1 adds, including the 32-bit wrap |
| BucketSignature.ReplayCounts | lib/octcode.js:52-60 | from any bucket in closed-form position n, a run of m adds lands at position n+m |
| BucketSignature.ReplayMessages | lib/octcode.js:61 | a run of adds appends the defaulted messages in order |
| BucketSignature.ReplayFromZero | lib/octcode.js:27-32 | from a freshly initialised bucket, bit and sum after n adds are the closed form at n |
| BucketSignature.ClosedFormBelowWrap | lib/octcode.js:52-60 | for 1 ≤ n ≤ 31 the closed form is bit 2^(n-1) and sum 2^n − 1 |
| BucketSignature.SumAfterAdds | lib/octcode.js:52-61 | n adds (1 ≤ n ≤ 31) to a fresh bucket give bit 2^(n-1), sum 2^n − 1 and the messages in order |
| BucketSignature.SumWrapsAround | lib/octcode.js:57-59 | the 32nd add makes the bit −2^31 and the sum −1, the 33rd makes the bit 0, the 34th starts over at bit 1 and sum 1 |
| BucketSignature.Lookup | lib/octcode.js:42-49 | a status with no bucket reads as the empty bucket `init` creates |
| BucketSignature.Step | lib/octcode.js:34-61 | an add advances exactly the bucket of its status (bucket 0 for no status), adds that key, and leaves every other bucket unchanged |
| BucketSignature.MessagesForConcat | lib/octcode.js:34-61 | the messages sent to a status by two runs are those of the first run followed by those of the second |
| BucketSignature.MessagesForOthers | lib/octcode.js:34-61 | a run with no add to a status sends it no messages |
| BucketSignature.Resumption | lib/octcode.js:36-46 | after any run, a status's bucket is its earlier bucket with just that status's messages replayed onto it, whatever came in between |
| BucketSignature.RunKeys | lib/octcode.js:36-49 | a status has a bucket after a run iff it had one before or the run added to it |
| BucketSignature.Interleaving | lib/octcode.js:36-46 | removing adds to other statuses from the middle of a run does not change a status's bucket |
| BucketSignature.RunSignature | lib/octcode.js:34-62 | a status new to the buckets ends in the closed form of its own add count, with its own defaulted messages in order |
| Octcode.StatusOrZero | lib/octcode.js:29 | `status \|\| 0`: the given status, or 0 when omitted |
| Octcode.Buckets | lib/octcode.js:36-46 | the bucket map has exactly the saved statuses plus the current one, and the live state stands for the current status |
| Octcode.InitState | lib/octcode.js:27-32 | `init` makes `status \|\| 0` current with an empty new message array and bit and sum 0, and leaves history and every existing array alone |
| Octcode.SaveCurrent | lib/octcode.js:36-40 | saving keeps every message-array reference inside the store |
| Octcode.SwitchAsWritten | lib/octcode.js:35-50 | the bucket switch as written keeps every reference inside the store |
| Octcode.SwitchResuming | lib/octcode.js:35-50 | the corrected switch keeps every reference inside the store |
| Octcode.Accumulate | lib/octcode.js:52-61 | the live bucket advances by exactly one bucket add, and no other array, status or history entry changes |
| Octcode.AddAsWritten | lib/octcode.js:34-61 | history changes only at the status left, which gets the live bucket; restoring a saved bucket keeps the old status as current |
| Octcode.AddResuming | lib/octcode.js:34-61 | with the corrected restore, the status passed is current after the add |
| Octcode.GetResult | lib/octcode.js:80-94 | no key, key 0 or the current status reads the live bucket; any other key succeeds iff it has a bucket, reads that bucket, and otherwise fails with `no errors for status code <key>`; a read bucket is rendered by `Render` as namespace, key and sum, with the messages joined by the delimiter |
| Octcode.SwitchRestore | lib/octcode.js:36-46 | restoring a saved status puts its bit, sum and array in the live state; as written the current status stays the old one, and corrected it becomes the restored one |
| Octcode.SwitchFresh | lib/octcode.js:36-49 | switching to a status never saved saves the live bucket and starts an empty one, in both versions |
| Octcode.AccumulateShift | lib/octcode.js:56-61 | a non-empty bucket shifts its bit, adds it to the sum and pushes onto the live array |
| Octcode.AccumulateFirst | lib/octcode.js:52-55 | an empty bucket gets bit 1 and sum 1 |
| Octcode.AddResumingSameStatus | lib/octcode.js:52-61 | an add to the current status performs the bucket-level step and keeps message arrays unshared |
| Octcode.RestoreBuckets | lib/octcode.js:36-46 | the corrected restore followed by the advance is the bucket-level step |
| Octcode.RestoreOwned | lib/octcode.js:36-46 | the corrected restore keeps message arrays unshared between distinct buckets |
| Octcode.AddResumingRestore | lib/octcode.js:36-46 | an add that resumes a saved status performs the bucket-level step and keeps arrays unshared |
| Octcode.FreshBuckets | lib/octcode.js:47-49 | an add to a new status (or to no status) is the bucket-level step |
| Octcode.FreshOwned | lib/octcode.js:47-49 | an add to a new status keeps arrays unshared |
| Octcode.AddResumingFresh | lib/octcode.js:47-49 | an add that starts a bucket performs the bucket-level step and keeps arrays unshared |
| Octcode.AddResumingStep | lib/octcode.js:34-61 | every corrected add equals the bucket-level step on the buckets it stands for, and preserves unshared arrays |
| Octcode.RunResuming | lib/octcode.js:34-61 | a run of corrected adds keeps every reference in the store |
| Octcode.RunAsWritten | lib/octcode.js:34-61 | a run of adds as written keeps every reference in the store |
| Octcode.RunResumingBuckets | lib/octcode.js:34-61 | a run of corrected adds is the bucket-level run on the buckets it stands for |
| Octcode.ResumedGet | lib/octcode.js:80-94 | after any run of corrected adds on a new object, each add passing a status, `get(k)` reports the closed-form sum of the adds to k and their messages in order, or the error iff k was never added to |
| Octcode.AddToNewStatus | lib/octcode.js:36-49 | an add to a status neither current nor saved saves the live bucket and starts a one-message bucket, in both versions |
| Octcode.AddToCurrentStatus | lib/octcode.js:52-61 | an add to the current status shifts the bit and pushes, in both versions |
| Octcode.AsWrittenAgreesOffRestore | lib/octcode.js:35-50 | the add as written and the corrected add give the same state for an add to the current status, to no status, or to a status with no history entry, so the two differ only when a saved bucket is resumed |
| Octcode.FirstAddWithoutMessage | test/octcode.specs.js:73-79 | a first add to 400 without a message on a new object returns `BAR4001` and `unknown error` |
| Octcode.ScenarioPrefix | test/octcode.specs.js:105-111 | the first five adds of the scenario reach the same state in both versions |
| Octcode.SixthAdd | test/octcode.specs.js:112 | returning to 400 restores sum 3 and array 1; as written 500 stays current |
| Octcode.SeventhAddAsWritten | lib/octcode.js:35-46 | as written, the next add to 400 switches again and restores the stale sum 3 |
| Octcode.SeventhAddResuming | test/octcode.specs.js:113 | corrected, the next add to 400 stays in the live bucket and reaches sum 15 |
| Octcode.ReturningToBucketAsWritten | lib/octcode.js:42-46 | the code as written returns `BAR4007` for the scenario whose test expects `BAR40015` |
| Octcode.ReturningToBucketResuming | test/octcode.specs.js:105-117 | the corrected add returns `BAR40015` and `a400-1\|b400-3\|c400-7\|d400-15` |
| Octcode.Accumulator.constructor | lib/octcode.js:23-25 | a new object is in the fresh state, with the given namespace and delimiter or their defaults |
| Octcode.Accumulator.Reset | lib/octcode.js:65-78 | `reset` picks namespace and delimiter, clears history and starts a fresh bucket 0 |
| Octcode.Accumulator.Init | lib/octcode.js:27-32 | the method performs `InitState` |
| Octcode.Accumulator.Add | lib/octcode.js:34-63 | the method performs `AddAsWritten` and returns `AddResult`: namespace, the status as passed (`KeyText`, `undefined` when omitted) and the live sum, with the live messages joined by the delimiter (`Render`) |
| Octcode.Accumulator.AddCorrected | lib/octcode.js:34-63 | the method performs `AddResuming` and returns `AddResult` on the new state, as `Add` does |
| Octcode.Accumulator.Advance | lib/octcode.js:52-61 | the method performs `Accumulate` |
| Octcode.Accumulator.Get | lib/octcode.js:80-94 | the method returns `GetResult` and changes nothing |
| ErrorCoding.CodeText | lib/error-coder.js:84 | an error code is the namespace, then the status's decimal text, then exactly the error code's decimal text |
| ErrorCoding.Template | lib/error-coder.js:73-75 | the lookup fails iff there is no table for the current status, and yields a template iff the entry is a non-empty string |
| ErrorCoding.Logged | lib/error-coder.js:88-95 | the push adds the status's key, creates the group with that status when missing, appends exactly the record, and leaves other groups alone |
| ErrorCoding.AddToLog | lib/error-coder.js:68-99 | a falsy code fails first; a missing table fails; otherwise only the log changes, only under the current status, by exactly one record when a template exists |
| ErrorCoding.LoggedGrouped | lib/error-coder.js:88-95 | pushing a record whose code starts with namespace and status keeps every group under its own status, non-empty and with matching codes |
| ErrorCoding.AddToLogGrouped | lib/error-coder.js:83-95 | `add` keeps every group under its own status, non-empty, with codes that start with namespace and status |
| ErrorCoding.SetStatusOn | lib/error-coder.js:57-63 | a falsy status fails with `status code is required`; otherwise it becomes current and nothing else changes |
| ErrorCoding.InitOn | lib/error-coder.js:50-52 | `init` makes `status \|\| 0` current and changes nothing else |
| ErrorCoding.SessionRecords | lib/error-coder.js:57-99 | after a chain of calls that does not throw, each status's errors are its old ones followed by the records of the adds made while it was current, in order |
| ErrorCoding.RecordedStep | lib/error-coder.js:57-99 | one call moves its own record, if any, from the reference records into the log |
| ErrorCoding.RecordedAdd | lib/error-coder.js:73-95 | one add moves its own record, if any, from the reference records into the log |
| ErrorCoding.LoggedErrors | lib/error-coder.js:73-95 | the errors under any status after an add |
| ErrorCoding.RecordedHead | lib/error-coder.js:68-75 | the reference records of a chain that starts with an add |
| ErrorCoding.SessionGrouped | lib/error-coder.js:57-99 | a chain of calls that does not throw keeps the log grouped |
| ErrorCoding.ErrorCoder.constructor | lib/error-coder.js:41-44 | a given option replaces its default; the status is undefined and the log is empty |
| ErrorCoding.ErrorCoder.Init | lib/error-coder.js:50-52 | the method performs `InitOn` |
| ErrorCoding.ErrorCoder.SetStatus | lib/error-coder.js:57-63 | the method performs `SetStatusOn`, returns the object itself for chaining, and changes nothing when it fails |
| ErrorCoding.ErrorCoder.Add | lib/error-coder.js:68-99 | the method performs `AddToLog`, keeps the log grouped, returns the object itself, and changes nothing when it fails |

## Left out

- `getNamespace` (`lib/octcode.js:8-21`, `lib/error-coder.js:10-29`) reads `package.json` from the file system. The derived namespace is a constructor parameter, `projectNamespace`.
- `reset` called with an options object as its first argument (`lib/octcode.js:66-71`) is not modelled. Only the string-namespace form is.
- `util.format` and the loop that collects `add`'s extra arguments (`lib/error-coder.js:76-82`) are a library call. The model passes the template and the arguments to a function parameter, `format`, which stands for them.
- `_.assign(defaults, options)` (`lib/error-coder.js:42`) writes into the module's one `defaults` object and returns that same object, so every ErrorCoder's `options` is one shared object. Options given to a later object replace those of every earlier one, and an option given once persists for later objects that omit it. The model keeps options per object.
- `send` (`lib/error-coder.js:105-107`) has an empty body and is not modelled.
- Statuses and error codes are integers. Other JavaScript values used as keys are not modelled, such as non-numeric strings, or numbers whose decimal text needs an exponent.
- ErrorCoding.Template: any non-empty string entry counts as a template. Non-string entries, which JavaScript would also test for truthiness, are not modelled.
- ErrorCoding.AddToLog: a missing table for the current status is an `Err` result. JavaScript throws a `TypeError` there, and its message text is not modelled.
- ErrorCoding.SessionRecords: states the log only for chains that do not throw. When a call throws, the methods leave the object unchanged.

## Findings

| source | as written | input that shows it | evidently intended | confidence | as-written member | corrected member |
|---|---|---|---|---|---|---|
| lib/octcode.js:42-46 | restoring a saved bucket sets bit, sum and messages but not `currentStatus`, so the next add to the same status switches again and restores the stale history entry | `new octcode('BAR', {delimiter: '\|'})`, then add 400 a400-1, 400 b400-3, 401 c, 500 c1, 500 c2, 400 c400-7, 400 d400-15: the last add returns code `BAR4007` (test `test/octcode.specs.js:105-117` expects `BAR40015`) | the restored status becomes current, so adds to it keep accumulating | not executed | Octcode.ReturningToBucketAsWritten | Octcode.AddResumingStep |

The as-written half is `Octcode.AddAsWritten`, which `Octcode.Accumulator.Add` performs. `Octcode.ReturningToBucketAsWritten` computes the scenario on it from the state `Octcode.ScenarioPrefix` reaches. The corrected half is `Octcode.AddResuming`, which `Octcode.Accumulator.AddCorrected` performs. It adds the one missing assignment. `Octcode.AddResumingStep`, `Octcode.RunResumingBuckets` and `Octcode.ResumedGet` prove that it resumes each bucket where it was left. `Octcode.ReturningToBucketResuming` shows that it gives the result the test expects. `Octcode.AsWrittenAgreesOffRestore` confines the defect to a return to a saved status. The same defect makes the tests at `test/octcode.specs.js:130-141` and `test/octcode.specs.js:143-155` fail as written.
