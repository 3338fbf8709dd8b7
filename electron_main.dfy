/**
  The main process's IPC handlers: the persistent key-value store behind
  `store:get` and `store:set`, and the choice of result for `select-directory`.
*/
module ElectronMain {

  import opened Wrappers
  import opened Values

  /** What `store:get` answers for `key` in the map `m`: the stored value, or `null` when the key is absent. */
  function Lookup(m: map<string, Value>, key: string): (v: Value)
    ensures key in m ==> v == m[key]
    ensures key !in m ==> v == Null
  {
    if key in m then m[key] else Null
  }

  /**
    How a store call through the IPC bridge ends when the renderer does not
    await it: it completes; it throws at once, so the
    caller stops there; or the promise it returns is rejected after the caller
    has carried on, with nothing stored.
  */
  datatype BridgeCall = Completed | ThrewAtOnce | Rejected

  /** The persistent store shared by every window and service of the application. */
  class Store {
    var entries: map<string, Value>

    /**
      The store as the first launch finds it, with nothing saved. The store
      lives in a file that later launches reopen, so a relaunch is modelled by
      handing the existing `Store` to the new services and providers.
    */
    constructor ()
      ensures entries == map[]
    {
      entries := map[];
    }

    /** The `store:get` handler. */
    method Get(key: string) returns (v: Value)
      ensures v == Lookup(entries, key)
    {
      if key in entries {
        v := entries[key];
      } else {
        v := Null;
      }
    }

    /** The `store:set` handler: stores `value` under `key` and always answers `true`. */
    method Set(key: string, value: Value) returns (ok: bool)
      modifies this
      ensures entries == old(entries)[key := value]
      ensures ok
    {
      entries := entries[key := value];
      ok := true;
    }
  }

  /** Reading a key just written gives the value written; every other key reads as before. */
  lemma LookupAfterSet(m: map<string, Value>, key: string, value: Value, other: string)
    ensures Lookup(m[key := value], key) == value
    ensures other != key ==> Lookup(m[key := value], other) == Lookup(m, other)
  {
  }

  /** Last write wins: a second write to the same key overwrites the first. */
  lemma SetTwice(m: map<string, Value>, key: string, first: Value, second: Value)
    ensures m[key := first][key := second] == m[key := second]
  {
  }

  /** The answer of the native open-directory dialog. */
  datatype DialogResult = DialogResult(canceled: bool, filePaths: seq<string>)

  /**
    The `select-directory` handler: `null` (None) when the dialog was cancelled,
    otherwise the first selected path. A dialog that was not cancelled but
    selected nothing answers `undefined` in the source, which is also None here.
  */
  function SelectDirectory(d: DialogResult): (r: Option<string>)
    ensures d.canceled ==> r == None
    ensures !d.canceled && |d.filePaths| > 0 ==> r == Some(d.filePaths[0])
    ensures r.Some? ==> r.value in d.filePaths
  {
    if !d.canceled && |d.filePaths| > 0 then Some(d.filePaths[0]) else None
  }

  /** A renderer that writes through `store:set` and reads back through `store:get` sees its own write. */
  method SetThenGet(s: Store, key: string, value: Value) returns (v: Value)
    modifies s
    ensures v == value
    ensures forall k :: k != key ==> Lookup(s.entries, k) == Lookup(old(s.entries), k)
  {
    var _ := s.Set(key, value);
    v := s.Get(key);
  }
}
