/** The device's persistent key-value store, as the client uses it: string
    values under string keys, every call asynchronous and able to reject. */
module AsyncStorage {
  import opened Js

  /** What a `getItem` resolves to (None for null), or the message of the
      Error it rejects with. */
  type Reading = Result<Option<string>, string>

  /** `items` is what is stored. While `readFault` is Some(m), `getItem`
      rejects with `new Error(m)`; while `writeFault` is Some(m), `setItem` and
      `removeItem` reject with it and store nothing. */
  class Storage {
    var items: map<string, string>
    var readFault: Option<string>
    var writeFault: Option<string>

    constructor (items: map<string, string>, readFault: Option<string>, writeFault: Option<string>)
      ensures this.items == items && this.readFault == readFault && this.writeFault == writeFault
    {
      this.items := items;
      this.readFault := readFault;
      this.writeFault := writeFault;
    }

    /** What `getItem(key)` resolves to or rejects with. */
    function Read(key: string): (r: Reading)
      reads this
      ensures r.Failure? <==> readFault.Some?
      ensures r.Success? ==> r.value == Get(items, key)
    {
      if readFault.Some? then Failure(readFault.value) else Success(Get(items, key))
    }

    method GetItem(key: string) returns (r: Reading)
      ensures r == Read(key)
    {
      if readFault.Some? {
        r := Failure(readFault.value);
      } else {
        r := Success(Get(items, key));
      }
    }

    /** `setItem(key, value)`: None when it resolved. */
    method SetItem(key: string, value: string) returns (e: Option<Thrown>)
      modifies this`items
      ensures e.Some? <==> writeFault.Some?
      ensures e.Some? ==> e.value == Raised(writeFault.value)
      ensures items == if writeFault.None? then old(items)[key := value] else old(items)
    {
      if writeFault.Some? {
        e := Some(Raised(writeFault.value));
      } else {
        items := items[key := value];
        e := None;
      }
    }

    /** `removeItem(key)`: None when it resolved. */
    method RemoveItem(key: string) returns (e: Option<Thrown>)
      modifies this`items
      ensures e.Some? <==> writeFault.Some?
      ensures e.Some? ==> e.value == Raised(writeFault.value)
      ensures items == if writeFault.None? then old(items) - {key} else old(items)
    {
      if writeFault.Some? {
        e := Some(Raised(writeFault.value));
      } else {
        items := items - {key};
        e := None;
      }
    }
  }
}
