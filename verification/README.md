# Parcel depot core in Dafny

A model of the bookkeeping core of the Parcel-Depot application. Customers wait
in a first-in first-out queue, each naming the parcel they came for. Parcels sit
in a table keyed by identifier. The manager serves the next customer or lets a
customer collect a parcel directly, charges a fee worked out by the worker, and
keeps an append-only list of processed records beside an event log.

The model is functional: a `Depot.State` holds the queue, the parcel table, the
processed records and the event log, and every manager operation is a function
from state to state. The process-wide log singleton becomes the `log` field of
that state. Text the program takes from the Java library is passed in as
parameters:

- `Depot.Formatter` supplies `String.format("%.2f", …)`, `Customer.toString()` and `Double.toString(…)`.
- `Depot.Parsers` supplies `Double.parseDouble` and `Integer.parseInt`, with `None` where Java throws `NumberFormatException`.

The Java string operations the loaders depend on are modelled exactly in `JavaStrings`:

- `trim` strips every character at or below the space character.
- `split(",", 2)` cuts at the first comma only.
- `split("\\s*,\\s*")` cuts at every comma and absorbs the white space next to each comma. Like Java's split with limit 0, it then drops the empty strings at the end.
- `toUpperCase` is modelled on ASCII letters; see "Left out".

Files and modules:

| file | module | models |
|---|---|---|
| `optional.dfy` | `Optional` | an absent-or-present value |
| `java_strings.dfy` | `JavaStrings` | `trim`, `toUpperCase`, `startsWith("C")`, both `split` forms, `Integer.toString` |
| `parcel.dfy` | `ParcelModel` | `Parcel.java`: constructor, getters and setters, `isValidID`, `toString` |
| `customer.dfy` | `CustomerModel` | the customer record the queue holds |
| `queue_of_customers.dfy` | `CustomerQueue` | `QueueOfCustomers.java` |
| `parcel_store.dfy` | `ParcelStore` | the parcel table as the manager uses it |
| `worker.dfy` | `FeeRule` | `Worker.java`: `calculateFee`, `processCustomer` |
| `manager.dfy` | `Depot` | `Manager.java`: the loaders, `processNextCustomer`, `collectParcel`, the listings |
| `depot_properties.dfy` | `DepotProperties` | properties of runs of operations and of whole loads |

Two behaviours of `loadCustomers` and `loadParcels` worth noting:

- `loadCustomers` starts its sequence counter at 1 on every call (`Manager.java` line 50). A second load therefore numbers its customers from 1 again rather than continuing the count. `DepotProperties.LoadNumbersFromOne` states this.
- In `loadParcels` the `NumberFormatException` handler sits outside the reading loop (`Manager.java` lines 103-105). A line whose number does not parse therefore ends the whole load; it is not skipped. Parcels inserted before that line stay. `DepotProperties.AbortEndsLoad` states this. Only lines with the wrong number of fields are skipped, which `DepotProperties.SkippedLineIgnored` states.

## Model

| member | source | states |
|---|---|---|
| JavaStrings.TrimShape | main/controller/Manager.java:55 | trimming keeps one contiguous middle part of the line: everything cut off before it and after it is a character at or below the space, the part kept is empty or begins and ends with a character above the space, and no character above the space is lost |
| JavaStrings.TrimUnique | main/controller/Manager.java:55 | a middle part that begins and ends above the space, with only characters at or below the space around it, is exactly what trimming keeps |
| JavaStrings.TrimPadded | main/controller/Manager.java:55-58 | characters at or below the space added around a string do not change its trim |
| JavaStrings.TrimIdempotent | main/controller/Manager.java:55-58 | trimming twice is trimming once, so trimming the line and then each of its pieces never strips more than the piece's own ends |
| JavaStrings.ToUpperShape | main/controller/Manager.java:58 | no lower-case letter survives upper-casing, and every other character stays where it was |
| JavaStrings.ToUpperIdempotent | main/controller/Manager.java:118 | upper-casing an id the loader already upper-cased gives the same id, so the lookup key is the stored id |
| JavaStrings.SplitFirstComma | main/controller/Manager.java:55-56 | the limit-2 split gives one piece exactly when the line has no comma, and two pieces otherwise |
| JavaStrings.SplitFirstCommaShape | main/controller/Manager.java:55 | the limit-2 split cuts at the first comma: the left piece holds no comma and left, comma, right is the line again |
| JavaStrings.SplitAtCommas | main/controller/Manager.java:84 | cutting at commas gives at least one piece, none holding a comma |
| JavaStrings.JoinSplit | main/controller/Manager.java:84 | the pieces joined with commas give back the line, so the cut loses nothing |
| JavaStrings.SplitJoin | main/controller/Manager.java:84 | comma-free pieces joined with commas cut back into the same pieces |
| JavaStrings.DropTrailingEmpty | main/controller/Manager.java:84 | the regular-expression split drops only the empty strings at the end: the result is a prefix that is empty or ends in a non-empty field |
| JavaStrings.SplitFields | main/controller/Manager.java:84 | a line without a comma is a single field; no field holds a comma; a split that found commas is empty or ends in a non-empty field |
| JavaStrings.SplitFieldsJoin | main/controller/Manager.java:84 | non-empty, comma-free fields without white space at their ends, joined with commas, split back into exactly those fields |
| JavaStrings.SplitFieldsPadded | main/controller/Manager.java:84 | the same fields with any white space before or after each comma still split back into exactly those fields: the split absorbs the white space next to every comma |
| ParcelModel.NewParcel | main/model/Parcel.java:22-31 | the constructor stores each argument in its field and the parcel starts uncollected |
| ParcelModel.Apply | main/model/Parcel.java:34-88 | a setter makes its getter return the value written and leaves every other getter's answer as it was |
| ParcelModel.UnwrittenFieldKept | main/model/Parcel.java:34-88 | a field no setter call in a sequence writes keeps its value |
| ParcelModel.ApplyAllAppend | main/model/Parcel.java:34-88 | two runs of setter calls one after the other act as their concatenation |
| ParcelModel.LastWriteWins | main/model/Parcel.java:34-88 | each getter returns the value of the last setter call on its field |
| ParcelModel.StaysUncollected | main/model/Parcel.java:82-88 | a new parcel reads as collected only after `setCollected(true)` has been called on it |
| ParcelModel.MatchesIdPattern | main/model/Parcel.java:96-98 | an id matches exactly when it is an upper-case X or C followed by one or more ASCII digits and nothing else |
| ParcelModel.InvalidIdExamples | main/model/Parcel.java:96-98 | the empty id, a bare prefix, a lower-case prefix and a trailing letter are rejected; X12 and C200 are accepted |
| CustomerQueue.EmptyQueue | main/model/QueueOfCustomers.java:14-16 | a new queue is empty and has size zero |
| CustomerQueue.Enqueue | main/model/QueueOfCustomers.java:18-20 | the customer joins at the tail behind everyone already waiting |
| CustomerQueue.Dequeue | main/model/QueueOfCustomers.java:22-24 | the head is removed and returned; an empty queue returns nothing and stays empty |
| CustomerQueue.EmptyIffSizeZero | main/model/QueueOfCustomers.java:26-32 | the queue is empty exactly when its size is zero |
| CustomerQueue.GetAllCustomers | main/model/QueueOfCustomers.java:34-36 | the snapshot lists every waiting customer head first, one per position |
| CustomerQueue.Drain | main/model/QueueOfCustomers.java:22-36 | dequeuing until nothing is returned hands out exactly the snapshot, in order |
| CustomerQueue.FirstInFirstOut | main/model/QueueOfCustomers.java:18-24 | those already waiting leave first, then the newcomers in the order they were enqueued |
| CustomerQueue.TwoInTwoOut | main/model/QueueOfCustomers.java:18-24 | two customers enqueued on an empty queue come out in the same order and leave it empty |
| CustomerQueue.EnqueueKeepsHead | main/model/QueueOfCustomers.java:18-24 | enqueueing behind a non-empty queue does not change who is served next |
| ParcelStore.Put | main/controller/Manager.java:93-94 | inserting stores the parcel under its own id, replacing any earlier parcel with that id, and keeps every other entry |
| ParcelStore.Get | main/controller/Manager.java:119-120 | a lookup finds a parcel exactly when the id is a key, and returns the stored one |
| ParcelStore.Remove | main/controller/Manager.java:130 | removal deletes that key only, shrinks the table by one when present and is no error when absent |
| ParcelStore.PutAllContents | main/controller/Manager.java:83-101 | after inserting a sequence of parcels the keys are the old keys plus every inserted id; under each inserted id the table holds the last parcel inserted with that id; every entry whose id no inserted parcel carries keeps its old parcel |
| ParcelStore.PutAllLastWins | main/controller/Manager.java:94 | a parcel that no later inserted parcel shares an id with is the one stored under its id |
| ParcelStore.PutAllKeeps | main/controller/Manager.java:94 | an entry whose id no inserted parcel carries stays in the table unchanged |
| FeeRule.FeeFormula | main/model/Worker.java:21-34 | the fee is length times width times height times weight, times one plus days over a hundred, times 0.8 when the id starts with C |
| FeeRule.DiscountRatio | main/model/Worker.java:29-31 | with equal measurements and days, an id starting with C pays exactly 0.8 of what any other id pays |
| FeeRule.LowerCaseNoDiscount | main/model/Worker.java:29 | the discount condition is case-sensitive: an id starting with a lower-case c pays the full day-adjusted fee |
| FeeRule.ZeroMeasureIsFree | main/model/Worker.java:22 | a zero length, width, height or weight gives a zero fee |
| FeeRule.FeeNonNegative | main/model/Worker.java:21-34 | non-negative measurements and days give a non-negative fee |
| FeeRule.FeeMonotoneInDays | main/model/Worker.java:25-26 | with a non-negative base fee, more days in the depot never lower the fee |
| FeeRule.FeeExample | main/model/Worker.java:21-34 | a C parcel of 2 by 3 by 4, weight 5, ten days in the depot, costs 105.6 |
| FeeRule.ProcessCustomer | main/model/Worker.java:11-13 | processing a customer leaves the parcel table as it was |
| Depot.NewManager | main/controller/Manager.java:22-27 | a new manager has an empty queue, an empty table and no processed records |
| Depot.ProcessNextCustomer | main/controller/Manager.java:113-144 | on an empty queue only the no-customer message is logged. Otherwise the head customer leaves the queue for good. If their upper-cased parcel id is absent, only a not-found line is logged. If it is present, that parcel alone leaves the table and one record naming the id, the customer and the fee of that parcel is appended to both the records and the log |
| Depot.CollectParcel | main/controller/Manager.java:150-170 | collection succeeds exactly when the upper-cased id is in the table. On success that parcel alone is removed and one record with its fee is appended to the records and the log. On failure only a not-found line is logged. The queue is never touched |
| Depot.CustomerRequest | main/controller/Manager.java:55-58 | a customer line asks for a parcel exactly when it holds a comma |
| Depot.CustomerLine | main/controller/Manager.java:55-60 | a customer line yields a customer exactly when it holds a comma, and carries the sequence number it was given |
| Depot.CustomerLineFields | main/controller/Manager.java:55-60 | any comma-free text, a comma and any text yield the customer named by the trimmed left text and waiting for the trimmed, upper-cased right text, whatever white space surrounds the line or the comma |
| Depot.CustomerLineAtFirstComma | main/controller/Manager.java:55-60 | every line with a comma is read through its first comma: the name is the trimmed text before it and the id the trimmed, upper-cased text after it |
| Depot.CustomerLineNormalised | main/controller/Manager.java:55-58 | an accepted line gives a trimmed name without a comma and an id already in upper case |
| Depot.CustomerLineRoundTrip | main/controller/Manager.java:55-60 | a line written as a trimmed comma-free name, a comma and a trimmed id reads back as that name and the upper-cased id |
| Depot.AliceExample | main/controller/Manager.java:55-60 | the line `Alice,x100` read first yields customer 1, Alice, waiting for X100 |
| Depot.PaddedAliceExample | main/controller/Manager.java:55-60 | the line ` Alice , x100 ` read first also yields customer 1, Alice, waiting for X100 |
| Depot.CustomersFrom | main/controller/Manager.java:50-68 | one customer per line with a comma, in file order, numbered consecutively from the starting number |
| Depot.CustomersCount | main/controller/Manager.java:54-67 | a customer file yields exactly as many customers as it has lines with a comma |
| Depot.AddCustomers | main/controller/Manager.java:60-62 | accepted customers join the queue in file order behind those waiting, each with one log line; table and records are untouched |
| Depot.LoadCustomers | main/controller/Manager.java:48-73 | a customer load appends the customers of the accepted lines, numbered from 1, to the queue and their lines to the log, and changes nothing else |
| Depot.ParcelLine | main/controller/Manager.java:84-93 | a line is skipped exactly when it does not split into six fields, and ends the load exactly when it has six fields and a number fails to parse. Otherwise it gives an uncollected parcel under the upper-cased first field, holding the parsed numbers |
| Depot.ParcelLineRoundTrip | main/controller/Manager.java:84-93 | six clean fields joined with commas are never skipped, and load exactly when every number parses, giving a parcel under the upper-cased first field built from those numbers |
| Depot.ParcelLinePadded | main/controller/Manager.java:84-93 | the same holds with white space on either side of any comma and trim characters around the whole line |
| Depot.ParcelLineExample | main/controller/Manager.java:84-93 | the line `c200, 2, 3, 4, 5, 10` reads as the six fields c200, 2, 3, 4, 5 and 10 |
| Depot.UpperC200 | main/controller/Manager.java:86 | the id field c200 is stored as C200 |
| Depot.ReadParcels | main/controller/Manager.java:83-105 | a load reads no more parcels than it has lines, and every parcel read comes from a line that loaded |
| Depot.LoadedParcels | main/controller/Manager.java:83-105 | every parcel a load inserts has an upper-case id and is uncollected |
| Depot.AddParcels | main/controller/Manager.java:93-95 | loaded parcels are inserted in file order, each with one log line; queue and records are untouched |
| Depot.LoadParcels | main/controller/Manager.java:78-106 | a parcel load puts the parcels read into the table one after the other, so that by ParcelStore.PutAllContents the last one per id wins; it logs each and changes neither queue nor records |
| Depot.Lines | main/controller/Manager.java:195-199 | a listing of at least one entry ends with a newline |
| Depot.CustomerListText | main/controller/Manager.java:193-200 | the customer listing is the placeholder exactly when nobody is waiting |
| Depot.ParcelListText | main/controller/Manager.java:206-213 | the parcel listing is the placeholder exactly when no parcels are stored |
| Depot.ProcessedListText | main/controller/Manager.java:228-235 | the processed listing is the placeholder exactly when nothing has been processed |
| DepotProperties.ProcessFollows | main/controller/Manager.java:113-144 | serving the next customer only appends to records and log, only shortens the queue from the head, and only removes table entries, one record per entry removed |
| DepotProperties.CollectFollows | main/controller/Manager.java:150-170 | a collection only appends to records and log, keeps the queue, and only removes table entries, one record per entry removed |
| DepotProperties.StepFollows | main/controller/Manager.java:113-170 | either operation keeps the history append-only, with one record per parcel that leaves the table |
| DepotProperties.RunFollows | main/controller/Manager.java:113-170 | over any sequence of operations the records and the log grow only at the end, the queue is a suffix of the old one, the table loses entries and never changes them, and records grow by exactly the number of parcels removed |
| DepotProperties.CollectAtMostOnce | main/controller/Manager.java:150-170 | a parcel once collected cannot be collected again, whatever case its id is typed in |
| DepotProperties.ProcessThenCollectFails | main/controller/Manager.java:113-170 | a parcel handed to a queued customer cannot be collected afterwards |
| DepotProperties.GoneStaysGone | main/controller/Manager.java:113-170 | an id missing from the table stays missing through any run, and every collection of it in that run fails |
| DepotProperties.DrainEmptiesQueue | main/controller/Manager.java:245-247 | the batch loop that serves the next customer while any are waiting leaves the queue empty after one step per customer |
| DepotProperties.OutcomesAppend | main/controller/Manager.java:83-85 | classifying the lines of two files read one after the other is classifying each file |
| DepotProperties.ReadStopsAtAbort | main/controller/Manager.java:103-105 | once a line aborts, nothing after it is read |
| DepotProperties.ReadPassesSkip | main/controller/Manager.java:98-100 | a skipped line reads as if it were absent |
| DepotProperties.ReadAppend | main/controller/Manager.java:83-101 | outcomes with no abort among the first part read as the parcels of the first part followed by those of the second |
| DepotProperties.ReadPassesLoaded | main/controller/Manager.java:85-95 | a loaded outcome with no abort before it puts its parcel between the parcels read before it and those read after it |
| DepotProperties.OutcomeAt | main/controller/Manager.java:83-85 | the outcome at each position is what that line does on its own |
| DepotProperties.LoadedLinesAppend | main/controller/Manager.java:83-101 | a parcel file whose first part has no aborting line loads the parcels of the first part, then those of the second |
| DepotProperties.LoadedLineKept | main/controller/Manager.java:83-101 | a line that loads, with no aborting line before it, has its parcel loaded after those of the lines before it and before those of the lines after it |
| DepotProperties.AbortEndsLoad | main/controller/Manager.java:83-105 | a line with a number that does not parse ends the parcel load, keeping exactly what the lines before it loaded |
| DepotProperties.SkippedLineIgnored | main/controller/Manager.java:83-100 | a parcel line with the wrong number of fields changes nothing: the load is as if it were not there |
| DepotProperties.RejectedCustomerLineIgnored | main/controller/Manager.java:54-67 | a customer line without a comma neither creates a customer nor uses up a sequence number |
| DepotProperties.NumberedSkipsNone | main/controller/Manager.java:56-67 | a line that asked for nothing is passed over by the numbering |
| DepotProperties.NumberedPassesSome | main/controller/Manager.java:56-60 | a request becomes the customer numbered one past those before it, and the numbering goes on from there |
| DepotProperties.NumberedAppend | main/controller/Manager.java:54-67 | numbering two runs of requests one after the other continues the second from where the first stopped |
| DepotProperties.CustomersAppend | main/controller/Manager.java:54-67 | the customers of two parts of a file are those of the first part, then those of the second numbered on from one past the accepted lines of the first |
| DepotProperties.CustomersOfAcceptedHead | main/controller/Manager.java:55-60 | a first line with a comma becomes the first customer, numbered with the starting number, and the lines after it are numbered on from one past it |
| DepotProperties.AcceptedCustomerLineKept | main/controller/Manager.java:54-67 | a line with a comma becomes, between the customers of the lines before it and those after it, the customer that line reads as, numbered one past the accepted lines before it |
| DepotProperties.LoadNumbersFromOne | main/controller/Manager.java:50-60 | the customers a load adds are numbered 1, 2, 3 and so on, whatever was already queued, one per line with a comma |

## Left out

- The report file (`writeReport`, `Manager.java` lines 175-188) is not modelled. It needs a clock timestamp, appends to a file and swallows write errors, and nothing in the model reads it back.
- File reading is replaced by the sequence of lines the file holds. An unreadable file, and an `IOException` part-way through, are not modelled.
- Console output (`System.out`, `System.err`) is not modelled: it changes no state.
- `Manager.main` loads two fixed files and writes the log to a file. Only its serving loop is modelled, by `DepotProperties.DrainEmptiesQueue`.
- `Customer.java`, `ParcelMap.java` and `Log.java` are not part of this model. The customer is a plain record and `Customer.toString` is a parameter. The parcel table is a map keyed by the exact id string. The log is an append-only sequence held in the state; writing it to a file is not modelled.
- The trivial getters of `Manager` (`getCustomerQueue`, `getParcelMap`, `getWorker`, `getProcessedParcels`) are the fields of `Depot.State`.
- The GUI, the console application and the duplicate `src/Parcel.java` are outside the core.
- `String.format("%.2f")`, `Double.toString` and `Double.parseDouble` are parameters, because IEEE double text conversion is not modelled. `Integer.parseInt` is also a parameter.
- FeeRule.Fee: computes over exact reals, not IEEE doubles, so rounding in the products and the division by 100.0 is not modelled.
- JavaStrings.ToUpper: upper-cases only the ASCII letters a to z. Java's locale-dependent mapping of other letters, which can also change the string's length, is not modelled.
- Depot.CustomersFrom: sequence numbers are unbounded integers. The Java `int` counter would wrap after 2^31 - 1 accepted lines.
- Depot.ParcelListText: takes the table's enumeration order as an input, because `ParcelMap.getAllParcels` is not part of this model.
- Worker's console trace of the base, day-adjusted and discounted fee is not modelled.
