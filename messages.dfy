/** The message store as values: the `MessageInput` and `Message` types,
    the `Message` class's constructor (server.js:43-49), and the read side
    of the store, `getMessage` (server.js:98-104). The class `Server.Root`
    holds the store and performs the writes. */
module MessageStore {
  import opened Common

  /** The GraphQL input type `MessageInput`: both fields optional. */
  datatype MessageInput = MessageInput(content: Option<string>, author: Option<string>)

  /** An instance of the `Message` class. */
  datatype Message = Message(id: string, content: Option<string>, author: Option<string>)

  /** `fakeDatabase`: each own property of the object and the value stored
      under it. A stored `None` is the `null` or `undefined` that
      `createMessage` or `updateMessage` writes when `input` is null or
      omitted. */
  type Db = map<string, Option<MessageInput>>

  /** The text of the error `getMessage` and `updateMessage` throw. */
  function NotFoundMessage(id: string): string
  {
    "no message exists with id " + id
  }

  /** The record a message was built from. */
  function InputOf(m: Message): MessageInput
  {
    MessageInput(m.content, m.author)
  }

  /** The `Message` constructor (server.js:43-49): it destructures `input`,
      which throws a TypeError when `input` is `null` or `undefined`. */
  function NewMessage(id: string, input: Option<MessageInput>): (r: Result<Message>)
    ensures r.Ok? <==> input.Some?
    ensures r.Err? ==> r.error == CannotDestructure
    ensures r.Ok? ==> r.value.id == id && InputOf(r.value) == input.value
  {
    match input
    case None => Err(CannotDestructure)
    case Some(i) => Ok(Message(id, i.content, i.author))
  }

  /** The stored value under `id` is truthy: `id` is an own property holding an
      object. Every object is truthy, `{}` included, so a stored record with
      no fields counts as present. */
  predicate Exists(db: Db, id: string)
  {
    id in db && db[id].Some?
  }

  /** `getMessage({id})`, with the existence check read as "an own property
      holding a record" (see `GetMessageAsWritten` for the guard as the
      source writes it). */
  function GetMessage(db: Db, id: string): (r: Result<Message>)
    ensures r.Ok? <==> Exists(db, id)
    ensures r.Err? ==> r.error == NotFound(NotFoundMessage(id))
    ensures r.Ok? ==> r.value.id == id && db[id] == Some(InputOf(r.value))
  {
    if !Exists(db, id) then Err(NotFound(NotFoundMessage(id))) else NewMessage(id, db[id])
  }

  /** Writing `input` under `id` changes what `getMessage` answers for `id`
      alone; for `id` it answers with exactly the fields of `input`, or
      fails when `input` is null. */
  lemma GetMessageAfterWrite(db: Db, id: string, input: Option<MessageInput>, other: string)
    ensures other != id ==> GetMessage(db[id := input], other) == GetMessage(db, other)
    ensures input.Some? ==>
      GetMessage(db[id := input], id) == Ok(Message(id, input.value.content, input.value.author))
    ensures input.None? ==> GetMessage(db[id := input], id) == Err(NotFound(NotFoundMessage(id)))
  {
  }

  // ---------------------------------------------------------------------
  // The existence guard as written.

  /** The names a plain JavaScript object inherits from `Object.prototype`.
      Reading one of them from an object without an own property of that
      name yields a function (or, for `__proto__`, an object): a truthy
      value. */
  const InheritedNames: set<string> := {
    "constructor", "hasOwnProperty", "isPrototypeOf", "propertyIsEnumerable",
    "toLocaleString", "toString", "valueOf", "__proto__",
    "__defineGetter__", "__defineSetter__", "__lookupGetter__", "__lookupSetter__"
  }

  /** The existence guard of server.js:99 and server.js:114 passes, as
      JavaScript evaluates the lookup: the own property if there is one,
      otherwise the inherited member. */
  predicate FoundAsWritten(db: Db, id: string)
  {
    if id in db then db[id].Some? else id in InheritedNames
  }

  /** `getMessage({id})` as written. For an inherited name the guard passes,
      and destructuring the inherited function yields no `content` and no
      `author`. */
  function GetMessageAsWritten(db: Db, id: string): (r: Result<Message>)
    ensures r.Ok? <==> FoundAsWritten(db, id)
    ensures r.Ok? ==> r.value.id == id
    ensures r.Ok? && id in db ==> db[id] == Some(InputOf(r.value))
    ensures r.Ok? && id !in db ==> r.value == Message(id, None, None)
  {
    if !FoundAsWritten(db, id) then Err(NotFound(NotFoundMessage(id)))
    else if id in db then NewMessage(id, db[id])
    else Ok(Message(id, None, None))
  }

  /** On an empty store, `getMessage({id: "toString"})` as written returns a
      message instead of failing. */
  lemma InheritedNameFoundAsWritten()
    ensures GetMessageAsWritten(map[], "toString") == Ok(Message("toString", None, None))
    ensures GetMessage(map[], "toString") == Err(NotFound("no message exists with id toString"))
  {
  }

  /** `updateMessage` (server.js:113-122) as written: the new own entries
      and the result. Assigning to `__proto__` replaces the object's
      prototype and adds no own entry, so the own entries stay as they are
      for that name. */
  function UpdateMessageAsWritten(db: Db, id: string, input: Option<MessageInput>): (out: (Db, Result<Message>))
    ensures !FoundAsWritten(db, id) ==> out == (db, Err(NotFound(NotFoundMessage(id))))
    ensures FoundAsWritten(db, id) ==> out.1 == NewMessage(id, input)
    ensures FoundAsWritten(db, id) && id != "__proto__" ==> out.0 == db[id := input]
    ensures id == "__proto__" ==> out.0 == db
  {
    if !FoundAsWritten(db, id) then (db, Err(NotFound(NotFoundMessage(id))))
    else if id == "__proto__" then (db, NewMessage(id, input))
    else (db[id := input], NewMessage(id, input))
  }

  /** On an empty store, `updateMessage({id: "toString", input})` as written
      passes the guard, adds an entry under `toString` and returns a
      message, where the corrected update fails with NotFound and changes
      nothing (`Server.Root.UpdateMessage`). */
  lemma InheritedNameUpdatedAsWritten(input: MessageInput)
    ensures !Exists(map[], "toString")
    ensures UpdateMessageAsWritten(map[], "toString", Some(input))
      == (map["toString" := Some(input)], Ok(Message("toString", input.content, input.author)))
  {
  }

  /** The guard as written and the corrected one disagree exactly on the
      inherited names that are not own properties of the store. */
  lemma AsWrittenDiffersOnlyOnInheritedNames(db: Db, id: string)
    ensures GetMessageAsWritten(db, id) != GetMessage(db, id) <==> id !in db && id in InheritedNames
  {
  }

  /** The digits of Node's hexadecimal encoding of bytes. */
  const HexDigits: string := "0123456789abcdef"

  /** The ids `createMessage` generates (server.js:107): ten random bytes,
      hex-encoded as two lower-case digits each. */
  predicate IsGeneratedId(id: string)
  {
    |id| == 20 && forall i :: 0 <= i < |id| ==> id[i] in HexDigits
  }

  /** A generated id is never an inherited name, so `createMessage` always
      writes an ordinary own property, and for such ids the guard as
      written and the corrected one agree. */
  lemma GeneratedIdIsNotInherited(id: string)
    requires IsGeneratedId(id)
    ensures id !in InheritedNames
  {
    // The only inherited name of length 20 starts with a letter past 'f'.
    assert id[0] in HexDigits;
    assert "propertyIsEnumerable"[0] !in HexDigits;
  }

  /** For every generated id, `updateMessage` as written behaves as the
      corrected update: it fails and changes nothing exactly when no record
      is stored under `id`. */
  lemma UpdateAsWrittenAgreesOnGeneratedIds(db: Db, id: string, input: Option<MessageInput>)
    requires IsGeneratedId(id)
    ensures UpdateMessageAsWritten(db, id, input) ==
      if Exists(db, id) then (db[id := input], NewMessage(id, input))
      else (db, Err(NotFound(NotFoundMessage(id))))
  {
    GeneratedIdIsNotInherited(id);
  }

  /** A store whose keys are all generated ids has no inherited name as a
      key, so no write into it ever went through the `__proto__` setter. */
  lemma GeneratedKeysAreNotInherited(db: Db)
    requires forall id :: id in db ==> IsGeneratedId(id)
    ensures forall id :: id in db ==> id !in InheritedNames
  {
    forall id | id in db
      ensures id !in InheritedNames
    {
      GeneratedIdIsNotInherited(id);
    }
  }

  lemma AsWrittenAgreesOnGeneratedIds(db: Db, id: string)
    requires IsGeneratedId(id)
    ensures GetMessageAsWritten(db, id) == GetMessage(db, id)
  {
    GeneratedIdIsNotInherited(id);
    AsWrittenDiffersOnlyOnInheritedNames(db, id);
  }
}
