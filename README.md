# GraphQL getting-started server: resolver model

A Dafny model of the resolver layer of a small GraphQL server (`server.js`).
The server exposes scalar queries (`hello`, `quoteOfTheDay`, `random`,
`rollThreeDices`, `rollDice`), a query returning an object type
(`getDice`, whose `RandomDice` has the fields `numSides`, `rollOnce` and
`roll(numRolls)`), a one-value scratch slot (`setMessage` / `catchMessage`)
and an in-memory message store (`createMessage`, `getMessage`,
`updateMessage`).

Files, one module each:

- `common.dfy` (`Common`): nullable values (`Option`), resolver outcomes
  (`Result`, with the three exceptions the resolvers can throw) and GraphQL's
  32-bit `Int`.
- `dice.dfy` (`Dice`): the `RandomDice` class as a value with `RollOnce` and
  `Roll`, the truthy default `numSides || 6`, and the `getDice`, `rollDice`
  and `rollThreeDices` resolvers.
- `scalars.dfy` (`Scalars`): `hello` (a constant) and `quoteOfTheDay`.
- `messages.dfy` (`MessageStore`): `MessageInput`, `Message` and its
  constructor, the store as a map, the existence check and `getMessage`, and
  the existence guard as the source writes it (see Findings).
- `server.dfy` (`Server`): the class `Root` holding the two pieces of
  process-wide state, `fakeMessageDatabase.message` and `fakeDatabase`, with
  the resolvers that read and write them as methods, followed by methods
  that run the resolvers in sequence.

Modelling decisions:

- Randomness is injected. A roll `1 + Math.floor(Math.random() * n)`
  receives the integer `Math.floor(Math.random() * n)` as a "draw"; the
  predicate `InDrawRange(n, k)` describes exactly the integers that
  expression can produce (`0 .. n-1` for `n > 0`, `n .. 0` otherwise). A
  multi-roll receives one draw per element, consumed in index order.
  `quoteOfTheDay` receives the outcome of `Math.random() < 0.5`.
- The generated id of `createMessage` is a parameter. `IsGeneratedId` states
  what `randomBytes(10).toString('hex')` yields (20 lower-case hex digits).
  As in the source, there is no collision check: an existing entry is
  overwritten.
- A stored value is `Option<MessageInput>`. A null or omitted `input` to
  `createMessage` or `updateMessage` is stored as `None`; the following
  `new Message(id, input)` then throws (`CannotDestructure`), and the store
  stays changed. Any stored object is truthy, so `Exists` is "an own entry
  holding a record".
- A negative `numRolls` or `numDice` makes `new Array` throw a RangeError
  (`InvalidArrayLength`). A negative `numSides` is truthy and kept.
- `FoundAsWritten` is the existence guard of server.js:99 and server.js:114
  as JavaScript evaluates it: the own property if there is one, otherwise
  the member inherited from `Object.prototype`. `Exists` is the corrected
  guard the class uses (see Findings).
- JavaScript's `null` and `undefined` are both `None`: GraphQL returns both
  as `null`.

What the code does at its edges: `createMessage` checks no id for
collisions; an `updateMessage` with a null input makes a present id read
as missing again; `numSides` may be negative; a null input and a negative
count throw errors other than the not-found one.

## Model

| member | source | states |
|---|---|---|
| `Dice.EffectiveSides` | server.js:84-88 | the side count is 6 when `numSides` is absent or 0 and the supplied value otherwise; it is never 0 |
| `Dice.RandomDice.RollOnce` | server.js:57-59 | for a die with at least one side a roll lies in `[1, numSides]`; for a negative side count it lies in `[numSides + 1, 1]` |
| `Dice.RandomDice.Roll` | server.js:61-63 | a negative `numRolls` throws the array-length RangeError; otherwise the result has exactly `numRolls` elements and element `i` is the `rollOnce` of draw `i`; when `numSides >= 1` every element lies in `[1, numSides]`, and for a negative side count each element, as the `RollOnce` of its draw, lies in `[numSides + 1, 1]` |
| `Dice.RollOnceReachesEveryFace` | server.js:57-59 | every face in `[1, numSides]` is the outcome of some draw, so the bound of `RollOnce` is exact |
| `Dice.RollReachesEveryOutcome` | server.js:61-63 | every sequence of `n` faces in `[1, numSides]` is the outcome of some draws, so length and bounds are all `Roll` guarantees |
| `Dice.GetDice` | server.js:87-89 | the die built has the defaulted side count |
| `Dice.GetDiceDefaults` | server.js:88 | `getDice()` and `getDice(0)` build the same die as `getDice(6)` |
| `Dice.GetDiceKeepsNonZero` | server.js:88 | a supplied non-zero side count, negative included, is kept |
| `Dice.RollDice` | server.js:84-86 | a negative `numDice` throws; otherwise exactly `numDice` rolls, each in `[1, s]` for the defaulted side count `s` when positive, and in `[1, 6]` when `numSides` is absent or 0 |
| `Dice.RollThreeDices` | server.js:81-83 | exactly three rolls, each in `[1, 6]` |
| `Scalars.QuoteOfTheDay` | server.js:75-77 | the quote is one of the two fixed strings |
| `Scalars.QuotesBothReachable` | server.js:76 | the two outcomes of the coin give the two different quotes |
| `MessageStore.NewMessage` | server.js:43-49 | building a `Message` fails exactly when the input is null; otherwise it carries the given id and the input's `content` and `author` |
| `MessageStore.GetMessage` | server.js:98-104 | fails exactly when no record is stored under `id`, with the error text `"no message exists with id " + id`; otherwise returns the id with the stored record's fields |
| `MessageStore.GetMessageAfterWrite` | server.js:98-121 | after a write under `id`, reads of other ids are unchanged, and a read of `id` returns exactly the written fields, or fails when the written input was null |
| `MessageStore.GetMessageAsWritten` | server.js:99-103 | the guard as written succeeds exactly when the own entry is a record or, with no own entry, when `id` is an inherited `Object.prototype` name; a success carries the id with the own entry's fields, or no fields for an inherited name |
| `MessageStore.InheritedNameFoundAsWritten` | server.js:99-103 | as written, `getMessage("toString")` on an empty store returns a message with no fields, where the corrected read fails with NotFound |
| `MessageStore.UpdateMessageAsWritten` | server.js:113-122 | as written: when the guard fails, the store is unchanged and the not-found error is returned; when it passes, the result is the `Message` built from `input`, and the entry `id := input` is written, except under `__proto__`, where no own entry changes |
| `MessageStore.InheritedNameUpdatedAsWritten` | server.js:114-121 | as written, `updateMessage("toString", input)` on an empty store (which holds no record) adds an entry under `toString` and returns a message |
| `MessageStore.AsWrittenDiffersOnlyOnInheritedNames` | server.js:99-103 | the guard as written and the corrected one disagree if and only if `id` is an inherited name with no own entry |
| `MessageStore.GeneratedIdIsNotInherited` | server.js:107 | a generated id (20 hex digits) is never an inherited name |
| `MessageStore.GeneratedKeysAreNotInherited` | server.js:107-109 | a store whose keys are all generated ids has no inherited name among its keys |
| `MessageStore.AsWrittenAgreesOnGeneratedIds` | server.js:98-111 | for every id `createMessage` can generate, the guard as written and the corrected one give the same answer |
| `MessageStore.UpdateAsWrittenAgreesOnGeneratedIds` | server.js:113-122 | for every id `createMessage` can generate, `updateMessage` as written fails and changes nothing exactly when no record is stored, and otherwise writes `id := input` and returns the `Message` built from it, as the corrected update does |
| `Server.Root.constructor` | server.js:67-68 | the store starts empty and the slot absent |
| `Server.Root.CatchMessage` | server.js:90-92 | returns the slot's current value and changes nothing |
| `Server.Root.SetMessage` | server.js:93-97 | the slot holds the given value, which is returned; the store is unchanged |
| `Server.Root.GetMessage` | server.js:98-104 | returns `MessageStore.GetMessage` of the current store and changes nothing |
| `Server.Root.CreateMessage` | server.js:105-112 | the store gains (or overwrites) the entry `id := input` and nothing else changes; the result is the `Message` built from `id` and `input`, or the TypeError for a null input; all keys stay generated ids |
| `Server.Root.UpdateMessage` | server.js:113-122 | with no record under `id`: fails with NotFound and nothing changes; otherwise the entry is replaced as a whole by `input`, no other entry changes, and the result is the `Message` built from it |
| `Server.ValidStoreHasNoInheritedKeys` | server.js:99-119 | in a valid store (all keys generated ids) no key is an inherited name, and on every stored id the guard as written and the corrected one give the same answer |
| `Server.SlotRoundTrip` | server.js:90-97 | `catchMessage` is absent before any `setMessage(m)` and returns `m` after it |
| `Server.CreateThenGet` | server.js:98-112 | `getMessage` on the id `createMessage` returned gives the same id and fields, and other ids read as before |
| `Server.TwoCreations` | server.js:105-112 | after two creations under different ids, both records are retrievable with their own fields |
| `Server.UpdateDropsOmittedField` | server.js:113-121 | updating `{a, b}` with `{content: "x"}` yields and stores `content "x"` with no author |
| `Server.MissingIdFails` | server.js:98-121 | on an id with no record, `getMessage` and `updateMessage` fail with the same error text and the store is unchanged |
| `Server.NullUpdateHidesMessage` | server.js:113-121 | `updateMessage` with a null input on a present id throws, and `getMessage` then reports the id as missing |
| `Server.NullCreateStoresThenThrows` | server.js:105-112 | `createMessage` with a null input throws, yet leaves a null entry under the new id, which reads as missing |

## Left out

- HTTP serving, the GraphiQL page, `app.listen` and the console message (server.js:1-2, server.js:125-135): transport and I/O.
- The schema text and `buildSchema` (server.js:6-40), with the runtime's argument validation and field dispatch: library code. Its guarantees appear as argument types (`Int32`, required versus `Option` arguments).
- `random` (server.js:78-80) and the floating-point value of `Math.random()`: the model takes integer draws instead, so it states which outcomes are possible, not their probabilities (uniformity is not modelled), and it ignores rounding of the floating-point product for very large side counts.
- `hello` (server.js:72-74) is the constant `Scalars.Greeting`, without a contract.
- `crypto.randomBytes` (server.js:107): the id is a parameter constrained by `IsGeneratedId`.
- MessageStore.UpdateMessageAsWritten: for the id `__proto__` it states the own entries and the result only; the replaced prototype, which changes later lookups of inherited names, is not modelled. The corrected `updateMessage` never writes an absent key, and `Server.ValidStoreHasNoInheritedKeys` shows the store's keys are never inherited names.
- The memory cost of very large arrays in `roll` and `rollDice`.
- Concurrency: the resolvers run one at a time on a single event loop.

## Findings

| source | as written | input that shows it | evidently intended | confidence | as-written member | corrected member |
|---|---|---|---|---|---|---|
| server.js:99 | `!fakeDatabase[id]` also reads the members every object inherits from `Object.prototype`, which are truthy | `getMessage({id: "toString"})` on an empty store returns a `Message` with null fields | fail with `no message exists with id toString` | not executed; high (standard JavaScript property lookup) | `MessageStore.InheritedNameFoundAsWritten` | `MessageStore.GetMessage` |
| server.js:114 | the same guard in `updateMessage` | `updateMessage({id: "toString", input})` on an empty store passes the guard, adds an entry under `toString` and returns a message | fail with `no message exists with id toString` and leave the store unchanged | not executed; high (standard JavaScript property lookup) | `MessageStore.InheritedNameUpdatedAsWritten` | `Server.Root.UpdateMessage` |

The rest of the model uses the corrected check `Exists` (an own entry
holding a record). `MessageStore.AsWrittenAgreesOnGeneratedIds` and
`MessageStore.UpdateAsWrittenAgreesOnGeneratedIds` show the two checks agree
on every id `createMessage` can produce, so the flaw only
shows when a caller supplies such a name.
