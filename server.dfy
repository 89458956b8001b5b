/** The process-wide state of the resolvers and the resolvers that use it
    (server.js:66-68, server.js:90-122): the single-value slot
    `fakeMessageDatabase.message` written by `setMessage` and read by
    `catchMessage`, and the dictionary `fakeDatabase` that `createMessage`
    and `updateMessage` write in place. */
module Server {
  import opened Common
  import opened MessageStore

  class Root {
    /** `fakeMessageDatabase.message`. */
    var message: Option<string>
    /** `fakeDatabase`. */
    var database: Db

    /** Every key of the store is an id that `createMessage` generated:
        `updateMessage` only rewrites keys already present. */
    ghost predicate Valid()
      reads this
    {
      forall id :: id in database ==> IsGeneratedId(id)
    }

    /** Both objects start empty (server.js:67-68), so the slot holds
        `undefined`. */
    constructor ()
      ensures Valid()
      ensures message == None && database == map[]
    {
      message := None;
      database := map[];
    }

    /** `catchMessage()`: the slot's current value. */
    method CatchMessage() returns (m: Option<string>)
      ensures m == message
    {
      m := message;
    }

    /** `setMessage({message})`: overwrites the slot and returns the value
        written. The store is not touched. */
    method SetMessage(m: Option<string>) returns (r: Option<string>)
      modifies this`message
      ensures message == m && r == m
      ensures database == old(database)
    {
      message := m;
      r := m;
    }

    /** `getMessage({id})`: reads the store and changes nothing. */
    method GetMessage(id: string) returns (r: Result<Message>)
      ensures r == MessageStore.GetMessage(database, id)
      ensures r.Err? <==> !Exists(database, id)
    {
      r := MessageStore.GetMessage(database, id);
    }

    /** `createMessage({input})` with the generated `id` supplied. The input
        is stored before the `Message` is built, so a null input is stored
        and the call then throws. No collision check: an existing entry
        under `id` is overwritten. */
    method CreateMessage(id: string, input: Option<MessageInput>) returns (r: Result<Message>)
      requires Valid() && IsGeneratedId(id)
      modifies this`database
      ensures Valid()
      ensures database == old(database)[id := input]
      ensures r == NewMessage(id, input)
      ensures message == old(message)
    {
      database := database[id := input];
      r := NewMessage(id, input);
    }

    /** `updateMessage({id, input})`: fails and changes nothing when there
        is no record under `id`; otherwise replaces the record with `input`
        as a whole, so fields omitted from `input` are gone afterwards. */
    method UpdateMessage(id: string, input: Option<MessageInput>) returns (r: Result<Message>)
      requires Valid()
      modifies this`database
      ensures Valid()
      ensures old(Exists(database, id)) ==>
        database == old(database)[id := input] && r == NewMessage(id, input)
      ensures !old(Exists(database, id)) ==>
        database == old(database) && r == Err(NotFound(NotFoundMessage(id)))
      ensures message == old(message)
    {
      if !Exists(database, id) {
        return Err(NotFound(NotFoundMessage(id)));
      }
      database := database[id := input];
      r := NewMessage(id, input);
    }
  }

  /** The keys of a valid store are never names inherited from
      `Object.prototype`: every write into it was an ordinary own-property
      write, and the guard as written agrees with the corrected one on
      every stored id. */
  lemma ValidStoreHasNoInheritedKeys(root: Root)
    requires root.Valid()
    ensures forall id :: id in root.database ==> id !in InheritedNames
    ensures forall id :: id in root.database ==>
      GetMessageAsWritten(root.database, id) == MessageStore.GetMessage(root.database, id)
  {
    GeneratedKeysAreNotInherited(root.database);
    forall id | id in root.database
      ensures GetMessageAsWritten(root.database, id) == MessageStore.GetMessage(root.database, id)
    {
      AsWrittenDiffersOnlyOnInheritedNames(root.database, id);
    }
  }

  // ---------------------------------------------------------------------
  // Sequences of resolver calls, proved from the contracts above alone.

  /** `catchMessage()` on a fresh server returns absent; after
      `setMessage(m)` it returns `m`. */
  method SlotRoundTrip(m: Option<string>) returns (before: Option<string>, after: Option<string>)
    ensures before == None && after == m
  {
    var root := new Root();
    before := root.CatchMessage();
    var _ := root.SetMessage(m);
    after := root.CatchMessage();
  }

  /** `createMessage(input)` followed by `getMessage` on the returned id
      gives back the same id and fields; the other records are as before. */
  method CreateThenGet(root: Root, id: string, input: MessageInput, other: string)
    returns (created: Result<Message>, fetched: Result<Message>, otherBefore: Result<Message>, otherAfter: Result<Message>)
    requires root.Valid() && IsGeneratedId(id) && other != id
    modifies root
    ensures root.Valid()
    ensures created == Ok(Message(id, input.content, input.author))
    ensures fetched == created
    ensures otherAfter == otherBefore
  {
    otherBefore := root.GetMessage(other);
    created := root.CreateMessage(id, Some(input));
    fetched := root.GetMessage(id);
    otherAfter := root.GetMessage(other);
    GetMessageAfterWrite(old(root.database), id, Some(input), other);
  }

  /** Two creations under different ids leave both records retrievable. */
  method TwoCreations(root: Root, id1: string, input1: MessageInput, id2: string, input2: MessageInput)
    returns (fetched1: Result<Message>, fetched2: Result<Message>)
    requires root.Valid() && IsGeneratedId(id1) && IsGeneratedId(id2) && id1 != id2
    modifies root
    ensures fetched1 == Ok(Message(id1, input1.content, input1.author))
    ensures fetched2 == Ok(Message(id2, input2.content, input2.author))
  {
    var _ := root.CreateMessage(id1, Some(input1));
    var _ := root.CreateMessage(id2, Some(input2));
    fetched1 := root.GetMessage(id1);
    fetched2 := root.GetMessage(id2);
  }

  /** Updating `{content: "a", author: "b"}` with `{content: "x"}` drops
      the author: the update is a full replacement. */
  method UpdateDropsOmittedField(root: Root, id: string) returns (updated: Result<Message>, fetched: Result<Message>)
    requires root.Valid() && IsGeneratedId(id)
    modifies root
    ensures updated == Ok(Message(id, Some("x"), None))
    ensures fetched == updated
  {
    var _ := root.CreateMessage(id, Some(MessageInput(Some("a"), Some("b"))));
    updated := root.UpdateMessage(id, Some(MessageInput(Some("x"), None)));
    fetched := root.GetMessage(id);
  }

  /** `getMessage` and `updateMessage` on an id with no record both fail
      with the same error and leave the store as it was. */
  method MissingIdFails(root: Root, id: string) returns (got: Result<Message>, updated: Result<Message>)
    requires root.Valid() && !Exists(root.database, id)
    modifies root
    ensures got == updated == Err(NotFound("no message exists with id " + id))
    ensures root.database == old(root.database)
  {
    got := root.GetMessage(id);
    updated := root.UpdateMessage(id, Some(MessageInput(Some("x"), None)));
  }

  /** `updateMessage` with a null input on a present id stores `null` and
      throws; afterwards `getMessage` reports the id as missing. */
  method NullUpdateHidesMessage(root: Root, id: string) returns (updated: Result<Message>, fetched: Result<Message>)
    requires root.Valid() && Exists(root.database, id)
    modifies root
    ensures updated == Err(CannotDestructure)
    ensures fetched == Err(NotFound(NotFoundMessage(id)))
    ensures id in root.database
  {
    updated := root.UpdateMessage(id, None);
    fetched := root.GetMessage(id);
  }

  /** `createMessage` with a null input stores `null` under the new id and
      then throws while building the `Message`: the store stays changed. */
  method NullCreateStoresThenThrows(root: Root, id: string) returns (created: Result<Message>, fetched: Result<Message>)
    requires root.Valid() && IsGeneratedId(id)
    modifies root
    ensures created == Err(CannotDestructure)
    ensures id in root.database && root.database[id] == None
    ensures fetched == Err(NotFound(NotFoundMessage(id)))
  {
    created := root.CreateMessage(id, None);
    fetched := root.GetMessage(id);
  }
}
