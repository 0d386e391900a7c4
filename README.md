# Sequential model of the Swift 5.7 concurrency and error-handling playground pages

The repository is a set of Swift playground pages that teach language features.
Four pages hold small pieces of state-and-value logic, and this project models them in Dafny:

- **Actors** (`collectors.dfy`, module `Collectors`). Card collectors trade cards between decks.
  `RiskyCollector` is a class and `SafeCollector` is an actor.
  Both have the same `send(card:to:)` and `transfer(card:)`.
  Both are tied to one pure description of a trade, `Exchange`.
  Its contract states the success condition, that the card moves, that no other card moves, that the union of the two decks is preserved, and that disjoint decks stay disjoint.
- **ActorsCount** (`counters.dfy`, module `Counters`). There are three integer counters.
  `CounterClass` and `CounterActor` are Dafny classes. `CounterStruct` is a datatype, because a Swift struct is copied on assignment.
  `Run` gives the value after a sequence of calls made one at a time.
  The lemmas prove that this value depends only on how many increments and decrements there were, so every one-at-a-time schedule of the page's balanced loops ends at 0.
- **StructClassActor** (`value_reference.dfy`, module `ValueReference`). Titles are held by reference types (`MyClass`, `MyActor`) and by value types (`MyStruct`, `MyStructLet`, `CustomStruct`, `MutatingStruct`).
  The page's test functions become methods whose postconditions state what each variable reads at the end.
- **DoCatchTryThrows** (`error_handling.dfy`, module `ErrorHandling`). Four getters report errors in three styles: an optional pair, a `Result`, and throwing functions.
  A Swift `throws` becomes a `Result`, and `try?` becomes an `Option`.
  One function, `DoCatch`, runs the statements of a do block in order and stops at the first throw. The page's three top-level do/catch blocks are that function applied to their statements. The do/catch inside `alwaysGetTitle`, with its three typed catch clauses, is modelled separately by `AlwaysGetTitle` and `CatchTitle`.
  The page's constant `isActive` is a parameter, and `IsActive` holds its fixed value `false`.

Only executions in which the calls run one after another are modelled.
This is the behaviour that actor isolation guarantees.
The races themselves are not modelled.
`wrappers.dfy` holds the `Option` and `Result` datatypes that these modules share.

## Model

| member | source | states |
|---|---|---|
| `Collectors.Remove` | Whats-New-In-Swift-5-7.playground/Pages/Actors.xcplaygroundpage/Contents.swift:93 | `deck.remove` yields the card exactly when it was present, and it leaves the deck without that card and with nothing else lost |
| `Collectors.Insert` | Whats-New-In-Swift-5-7.playground/Pages/Actors.xcplaygroundpage/Contents.swift:106-108 | `deck.insert` only adds: the card is present, every earlier card remains, and no other card appears |
| `Collectors.InsertIdempotent` | Whats-New-In-Swift-5-7.playground/Pages/Actors.xcplaygroundpage/Contents.swift:46-48 | transferring the same card twice leaves the same deck as transferring it once |
| `Collectors.Exchange` | Whats-New-In-Swift-5-7.playground/Pages/Actors.xcplaygroundpage/Contents.swift:79-103 | a send between distinct collectors succeeds iff the sender holds the card; on failure neither deck changes; on success the card leaves the sender and reaches the receiver; other cards stay put in both decks; the union of the decks is preserved; disjoint decks stay disjoint |
| `Collectors.ExchangeConservesCount` | Whats-New-In-Swift-5-7.playground/Pages/Actors.xcplaygroundpage/Contents.swift:93-100 | between disjoint decks a send neither duplicates nor loses a card: the total number of cards is unchanged |
| `Collectors.RiskyCollector.constructor` | Whats-New-In-Swift-5-7.playground/Pages/Actors.xcplaygroundpage/Contents.swift:19-22 | the collector starts with the given name and its own copy of the given deck |
| `Collectors.RiskyCollector.Send` | Whats-New-In-Swift-5-7.playground/Pages/Actors.xcplaygroundpage/Contents.swift:24-44 | returns true iff the card was in the deck at call time; between distinct collectors the decks change exactly as `Exchange` says; sent to itself the deck is unchanged; the "deck was wrong" branch is proved unreachable |
| `Collectors.RiskyCollector.Transfer` | Whats-New-In-Swift-5-7.playground/Pages/Actors.xcplaygroundpage/Contents.swift:46-48 | the new deck is the old deck with the card inserted |
| `Collectors.SafeCollector.constructor` | Whats-New-In-Swift-5-7.playground/Pages/Actors.xcplaygroundpage/Contents.swift:74-77 | the collector starts with the given name and its own copy of the given deck |
| `Collectors.SafeCollector.Send` | Whats-New-In-Swift-5-7.playground/Pages/Actors.xcplaygroundpage/Contents.swift:79-103 | returns true iff the card was in the deck at call time; between distinct collectors the decks change exactly as `Exchange` says; sent to itself the deck is unchanged; the "deck was wrong" branch is proved unreachable under isolation |
| `Collectors.SafeCollector.Transfer` | Whats-New-In-Swift-5-7.playground/Pages/Actors.xcplaygroundpage/Contents.swift:106-108 | the new deck is the old deck with the card inserted |
| `Collectors.SafeCollector.StaticData` | Whats-New-In-Swift-5-7.playground/Pages/Actors.xcplaygroundpage/Contents.swift:114-116 | always the string "data that never changes"; it has no reads clause, so it depends on no collector state |
| `Collectors.SafeScenario` | Whats-New-In-Swift-5-7.playground/Pages/Actors.xcplaygroundpage/Contents.swift:148-188 | whichever send runs first succeeds and the other fails; Sam ends with {boat, plane, house}; exactly one of Tim and Adam ends with {car} and the other with nothing |
| `Collectors.RiskyScenario` | Whats-New-In-Swift-5-7.playground/Pages/Actors.xcplaygroundpage/Contents.swift:152-167 | when Tim's send finishes before Adam's starts, Tim's succeeds and Adam's fails, Sam ends with {boat, plane, house}, Tim with {car} and Adam with nothing |
| `Counters.RunCounts` | Whats-New-In-Swift-5-7.playground/Pages/ActorsCount.xcplaygroundpage/Contents.swift:11-12 | after calls run one at a time, the value is the start plus the number of increments minus the number of decrements |
| `Counters.ScheduleIndependent` | Whats-New-In-Swift-5-7.playground/Pages/ActorsCount.xcplaygroundpage/Contents.swift:18-32 | any two one-at-a-time orders of the same calls end at the same value |
| `Counters.IncDecRestores` | Whats-New-In-Swift-5-7.playground/Pages/ActorsCount.xcplaygroundpage/Contents.swift:21-23 | an increment followed by a decrement restores the previous value, and so does the reverse order |
| `Counters.RunConcat` | Whats-New-In-Swift-5-7.playground/Pages/ActorsCount.xcplaygroundpage/Contents.swift:11-12 | running two call sequences one after the other is running the second from the value the first leaves |
| `Counters.Repeat` | Whats-New-In-Swift-5-7.playground/Pages/ActorsCount.xcplaygroundpage/Contents.swift:18 | n passes of a loop body make n times as many calls as one pass |
| `Counters.RepeatBalanced` | Whats-New-In-Swift-5-7.playground/Pages/ActorsCount.xcplaygroundpage/Contents.swift:18-32 | repeating a pass with equally many increments and decrements keeps the two counts equal |
| `Counters.ClassPass` | Whats-New-In-Swift-5-7.playground/Pages/ActorsCount.xcplaygroundpage/Contents.swift:18-32 | one pass of the class loop makes six calls, three increments and three decrements; `CounterClassLoop`'s invariant ties the counter's recorded calls to repetitions of this sequence, so its loop body makes exactly these calls in this order |
| `Counters.ActorPass` | Whats-New-In-Swift-5-7.playground/Pages/ActorsCount.xcplaygroundpage/Contents.swift:78-98 | one pass of the actor loop makes six calls, three increments and three decrements; `CounterActorLoop`'s invariant ties the counter's recorded calls to repetitions of this sequence, so its loop body makes exactly these calls in this order |
| `Counters.LoopEndsAtStart` | Whats-New-In-Swift-5-7.playground/Pages/ActorsCount.xcplaygroundpage/Contents.swift:78-98 | every one-at-a-time interleaving of the calls of n balanced passes ends at the starting value |
| `Counters.PageLoopsEndAtZero` | Whats-New-In-Swift-5-7.playground/Pages/ActorsCount.xcplaygroundpage/Contents.swift:18-98 | every one-at-a-time schedule of the 100-pass class loop and of the 10-pass actor loop ends at 0 |
| `Counters.CounterClass.constructor` | Whats-New-In-Swift-5-7.playground/Pages/ActorsCount.xcplaygroundpage/Contents.swift:8 | a new class counter reads 0 and has no recorded calls |
| `Counters.CounterClass.GetVal` | Whats-New-In-Swift-5-7.playground/Pages/ActorsCount.xcplaygroundpage/Contents.swift:10 | returns the current value and changes nothing |
| `Counters.CounterClass.Increment` | Whats-New-In-Swift-5-7.playground/Pages/ActorsCount.xcplaygroundpage/Contents.swift:11 | the value is raised by exactly 1; the call is appended to the counter's recorded calls, and the value stays what those calls give from 0 |
| `Counters.CounterClass.Dec` | Whats-New-In-Swift-5-7.playground/Pages/ActorsCount.xcplaygroundpage/Contents.swift:12 | the value is lowered by exactly 1, with no lower bound; the call is appended to the counter's recorded calls, and the value stays what those calls give from 0 |
| `Counters.CounterStruct.GetVal` | Whats-New-In-Swift-5-7.playground/Pages/ActorsCount.xcplaygroundpage/Contents.swift:41 | returns the copy's own value; reading is a function and changes nothing |
| `Counters.CounterStruct.Increment` | Whats-New-In-Swift-5-7.playground/Pages/ActorsCount.xcplaygroundpage/Contents.swift:42 | the updated copy reads one more than before |
| `Counters.CounterStruct.Dec` | Whats-New-In-Swift-5-7.playground/Pages/ActorsCount.xcplaygroundpage/Contents.swift:43 | the updated copy reads one less than before, with no lower bound |
| `Counters.CounterActor.constructor` | Whats-New-In-Swift-5-7.playground/Pages/ActorsCount.xcplaygroundpage/Contents.swift:67 | a new actor counter reads 0 and has no recorded calls |
| `Counters.CounterActor.PrintVal` | Whats-New-In-Swift-5-7.playground/Pages/ActorsCount.xcplaygroundpage/Contents.swift:69 | returns the current value and changes nothing |
| `Counters.CounterActor.Increment` | Whats-New-In-Swift-5-7.playground/Pages/ActorsCount.xcplaygroundpage/Contents.swift:71 | the value is raised by exactly 1; the call is appended to the counter's recorded calls, and the value stays what those calls give from 0 |
| `Counters.CounterActor.Dec` | Whats-New-In-Swift-5-7.playground/Pages/ActorsCount.xcplaygroundpage/Contents.swift:72 | the value is lowered by exactly 1, with no lower bound; the call is appended to the counter's recorded calls, and the value stays what those calls give from 0 |
| `Counters.CounterClassLoop` | Whats-New-In-Swift-5-7.playground/Pages/ActorsCount.xcplaygroundpage/Contents.swift:15-33 | the counter's recorded calls after each pass are that many repetitions of `ClassPass`, so after the 100 passes the class counter reads 0 |
| `Counters.CounterStructCopies` | Whats-New-In-Swift-5-7.playground/Pages/ActorsCount.xcplaygroundpage/Contents.swift:47-62 | a task's copy reads 1 after its increment and 0 after its decrement, and `counterStruct` itself still reads 0 |
| `Counters.ReferenceVersusCopy` | Whats-New-In-Swift-5-7.playground/Pages/ActorsCount.xcplaygroundpage/Contents.swift:15-58 | an increment through a second reference to a class counter is seen by the first reference; an increment of a struct copy is not seen by the original |
| `Counters.CounterActorLoop` | Whats-New-In-Swift-5-7.playground/Pages/ActorsCount.xcplaygroundpage/Contents.swift:76-103 | the counter's recorded calls after each pass are that many repetitions of `ActorPass`, so after the 10 passes the actor counter reads 0 |
| `ValueReference.MyClass.constructor` | Whats-New-In-Swift-5-7.playground/Pages/StructClassActor.xcplaygroundpage/Contents.swift:93-95 | a new instance holds the given title |
| `ValueReference.MyClass.UpdateTitle` | Whats-New-In-Swift-5-7.playground/Pages/StructClassActor.xcplaygroundpage/Contents.swift:97-99 | the title becomes exactly `newTitle`, and no other object changes |
| `ValueReference.CustomStruct.UpdateTitle` | Whats-New-In-Swift-5-7.playground/Pages/StructClassActor.xcplaygroundpage/Contents.swift:173-175 | returns a new value carrying `newTitle`; the receiver is a value and is left as it was |
| `ValueReference.CustomUpdateIgnoresReceiver` | Whats-New-In-Swift-5-7.playground/Pages/StructClassActor.xcplaygroundpage/Contents.swift:170-175 | the value `updateTitle` builds does not depend on the receiver |
| `ValueReference.MutatingStruct.UpdateTitle` | Whats-New-In-Swift-5-7.playground/Pages/StructClassActor.xcplaygroundpage/Contents.swift:185-187 | the variable it is called on afterwards holds `newTitle` |
| `ValueReference.MutatingUpdateLastWins` | Whats-New-In-Swift-5-7.playground/Pages/StructClassActor.xcplaygroundpage/Contents.swift:178-188 | of two updates the last one decides the title |
| `ValueReference.MyActor.constructor` | Whats-New-In-Swift-5-7.playground/Pages/StructClassActor.xcplaygroundpage/Contents.swift:230-232 | a new actor holds the given title |
| `ValueReference.MyActor.UpdateTitle` | Whats-New-In-Swift-5-7.playground/Pages/StructClassActor.xcplaygroundpage/Contents.swift:234-236 | the title becomes exactly `newTitle`, and no other object changes |
| `ValueReference.ClassTest1` | Whats-New-In-Swift-5-7.playground/Pages/StructClassActor.xcplaygroundpage/Contents.swift:102-116 | after `objectB = objectA` and an assignment through `objectB`, `objectA` reads the new title too |
| `ValueReference.ClassTest2` | Whats-New-In-Swift-5-7.playground/Pages/StructClassActor.xcplaygroundpage/Contents.swift:120-134 | `class1` keeps its own title after `class2` is updated, and `class2` reads the title passed to `updateTitle` |
| `ValueReference.StructTest1` | Whats-New-In-Swift-5-7.playground/Pages/StructClassActor.xcplaygroundpage/Contents.swift:149-164 | after `structB = structA` and a change to `structB`, `structA` keeps the original title |
| `ValueReference.StructTest2` | Whats-New-In-Swift-5-7.playground/Pages/StructClassActor.xcplaygroundpage/Contents.swift:190-222 | each of the page's struct variables, including both `let` ones, ends with the title the page gives it last; the value `updateTitle` was called on keeps its old title |
| `ValueReference.ActorTest1` | Whats-New-In-Swift-5-7.playground/Pages/StructClassActor.xcplaygroundpage/Contents.swift:239-255 | an update through an alias of an actor is what the original reference reads; the page defines this test function but never calls it |
| `ErrorHandling.GetTitle` | Whats-New-In-Swift-5-7.playground/Pages/DoCatchTryThrows.xcplaygroundpage/Contents.swift:28-34 | exactly one of title and error is present: the title "NEW TEXT!" iff active, otherwise the error `tooLong` |
| `ErrorHandling.GetTitle2` | Whats-New-In-Swift-5-7.playground/Pages/DoCatchTryThrows.xcplaygroundpage/Contents.swift:48-54 | success with "NEW TEXT!" iff active, otherwise failure with `tooShort` |
| `ErrorHandling.GetTitle3` | Whats-New-In-Swift-5-7.playground/Pages/DoCatchTryThrows.xcplaygroundpage/Contents.swift:69-75 | returns "NEW TEXT!" iff active, otherwise throws `tooShort` |
| `ErrorHandling.GetTitle4` | Whats-New-In-Swift-5-7.playground/Pages/DoCatchTryThrows.xcplaygroundpage/Contents.swift:78-84 | returns "FINAL TEXT!" iff active, otherwise throws `tooLong` and no other error |
| `ErrorHandling.TryOptional` | Whats-New-In-Swift-5-7.playground/Pages/DoCatchTryThrows.xcplaygroundpage/Contents.swift:107 | `try?` gives a value iff the call returned one, and that value is the returned one |
| `ErrorHandling.DoCatch` | Whats-New-In-Swift-5-7.playground/Pages/DoCatchTryThrows.xcplaygroundpage/Contents.swift:88-110 | the catch receives an error iff some statement throws; only a `try` of a failed call throws; the error caught is that of the first throwing statement; the titles obtained are exactly those of the returning `try`s before it, in order (`Obtained`), or of all statements when nothing throws |
| `ErrorHandling.OnlyDiscardsNeverCatch` | Whats-New-In-Swift-5-7.playground/Pages/DoCatchTryThrows.xcplaygroundpage/Contents.swift:106-110 | a do block made only of `try?` statements never reaches its catch clause and obtains no title |
| `ErrorHandling.FirstDoBlock` | Whats-New-In-Swift-5-7.playground/Pages/DoCatchTryThrows.xcplaygroundpage/Contents.swift:88-98 | when active both titles are obtained and nothing is caught; otherwise the throw from `getTitle3` skips `getTitle4`, no title is obtained and the catch sees `tooShort` |
| `ErrorHandling.SecondDoBlock` | Whats-New-In-Swift-5-7.playground/Pages/DoCatchTryThrows.xcplaygroundpage/Contents.swift:100-104 | the catch runs iff inactive, and then it sees `tooShort` |
| `ErrorHandling.ThirdDoBlock` | Whats-New-In-Swift-5-7.playground/Pages/DoCatchTryThrows.xcplaygroundpage/Contents.swift:106-110 | the catch after `try?` never receives an error |
| `ErrorHandling.CatchTitle` | Whats-New-In-Swift-5-7.playground/Pages/DoCatchTryThrows.xcplaygroundpage/Contents.swift:120-126 | the clauses are tried in order: `tooShort` and `tooLong` get their own messages, and any other error gets the catch-all's "Unexpected error" message |
| `ErrorHandling.AlwaysGetTitle` | Whats-New-In-Swift-5-7.playground/Pages/DoCatchTryThrows.xcplaygroundpage/Contents.swift:114-127 | total: "FINAL TEXT!" when active, "long error: tooLong." otherwise |
| `ErrorHandling.AlwaysGetTitleSkipsOtherClauses` | Whats-New-In-Swift-5-7.playground/Pages/DoCatchTryThrows.xcplaygroundpage/Contents.swift:119-126 | the result is never the `tooShort` clause's message and never a catch-all message, for any description of an unexpected error |
| `ErrorHandling.InactiveTakesErrorPaths` | Whats-New-In-Swift-5-7.playground/Pages/DoCatchTryThrows.xcplaygroundpage/Contents.swift:21-84 | with the page's `isActive = false` every getter takes its error path, and `alwaysGetTitle` gives "long error: tooLong." |

## Left out

- Thread scheduling and the races themselves are not modelled. This covers `DispatchQueue.global().async`, `Task`, `Task.detached` and `sleep` on the Actors and ActorsCount pages. The model covers the one-call-at-a-time executions that actor isolation provides.
- The check-then-act race of `RiskyCollector`, where two overlapping sends both pass the guard, is not modelled. `RiskyScenario` covers only the non-overlapping run.
- The reentrancy hazard of an `await` inside `SafeCollector.send`, mentioned in a comment in the source, is not modelled. The `await` before `transfer` is modelled as a call that completes before `send` returns.
- `Collectors.SafeScenario` leaves the order of the two tasks open as a parameter. It does not model how the runtime picks that order.
- `Counters.CounterClassLoop` and `Counters.CounterActorLoop` run each task's calls at the point where the task is started. Other one-at-a-time orders, including tasks that finish after later passes, are covered by `Counters.PageLoopsEndAtZero` over `Run`, not by these two methods.
- `Counters.CounterClass.Increment`, `Counters.CounterActor.Increment`, `Counters.CounterStruct.Increment`, `Counters.CounterClass.Dec`, `Counters.CounterActor.Dec` and `Counters.CounterStruct.Dec` use unbounded integers. Swift's `Int` traps on overflow above `Int.max` and below `Int.min`, but under any one-at-a-time schedule the absolute value is at most the number of calls made (600 for the class loop, 60 for the actor loop), far from that limit.
- `Collectors.Remove`, `Collectors.Insert`, `Collectors.RiskyCollector.Send` and `Collectors.SafeCollector.Send` compare card names as sequences of characters. Swift's `String` and `Set<String>` compare by Unicode canonical equivalence, so a card spelled with a precomposed character and one spelled with a combining sequence are the same card in Swift but different cards here. `Set.remove` also returns the member stored in the set, which under canonical equivalence may be spelled differently from the card asked for; `Remove` returns the card asked for. Dafny has no Unicode normalisation. The page's card names are plain ASCII, for which the two comparisons agree.
- `print`, `printDeck`, `printDivider` and the printed `localizedDescription` of errors are output only and are not modelled.
- `dynamicData` is not modelled, because it draws a random number.
- The access control of `private(set) var title` in `MutatingStruct` and of `private var value` in `CounterClass` and `CounterStruct` is a compile-time restriction that Dafny datatypes and classes cannot express. In the model, the counters are changed only through `Increment` and `Dec`, and `MutatingStruct` is changed only through `UpdateTitle`.
- A compile error from the commented-out assignments to `let` titles is not modelled. `MyStructLet` is a datatype whose title the model never changes.
- `DataMananger`, `currentViewModel` and the commented-out view on the StructClassActor page are UI or empty placeholders.
- The SwiftUI views and app, CoreData persistence, URL loading and image decoding, async streams, the timer-driven image counter and the prose-only Introduction page are not part of this model. They are presentation, external frameworks or concurrency over libraries that are not shown.
