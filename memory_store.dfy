/**
 * The assistant's memory (config/MemoryStore.java): a session-only short-term slot and a
 * long-term slot that every update writes to userMemory.json. The file is modelled by a
 * ghost field holding the long-term text it was last written with.
 */
module MemoryStores {
  import opened Wrappers

  /** safeString: a null string becomes the empty string. */
  function SafeString(s: Option<string>): (r: string)
    ensures s.Some? ==> r == s.value
    ensures s.None? ==> r == []
  {
    s.GetOr([])
  }

  /** The two slots and the persisted long-term text, as one value. */
  datatype Slots = Slots(shortTerm: string, longTerm: string, persisted: Option<string>)

  /** setShortTerm on the value: only the short-term slot changes. */
  function WithShortTerm(m: Slots, s: Option<string>): (r: Slots)
    ensures r.shortTerm == SafeString(s)
    ensures r.longTerm == m.longTerm && r.persisted == m.persisted
  {
    m.(shortTerm := SafeString(s))
  }

  /**
   * setLongTerm on the value: the long-term slot is replaced; when the file write succeeds
   * the file holds the new text, and when it fails the file keeps what it had.
   */
  function WithLongTerm(m: Slots, s: Option<string>, writeOk: bool): (r: Slots)
    ensures r.longTerm == SafeString(s)
    ensures r.shortTerm == m.shortTerm
    ensures r.persisted == if writeOk then Some(SafeString(s)) else m.persisted
  {
    m.(longTerm := SafeString(s), persisted := if writeOk then Some(SafeString(s)) else m.persisted)
  }

  /** A long-term update that reached the disk is what a later session reads back. */
  lemma LongTermSurvives(m: Slots, s: Option<string>)
    ensures WithLongTerm(m, s, true).persisted == Some(WithLongTerm(m, s, true).longTerm)
  {
  }

  /** Setting a slot twice leaves only the second value: set replaces, it does not append. */
  lemma SetReplaces(m: Slots, a: Option<string>, b: Option<string>, ok1: bool, ok2: bool)
    ensures WithShortTerm(WithShortTerm(m, a), b) == WithShortTerm(m, b)
    ensures WithLongTerm(WithLongTerm(m, a, ok1), b, ok2).longTerm == SafeString(b)
    ensures WithLongTerm(WithLongTerm(m, a, true), b, true) == WithLongTerm(m, b, true)
  {
  }

  class MemoryStore {
    var shortTerm: string
    var longTerm: string
    /** The long_term_memory recorded in userMemory.json; None when nothing was written. */
    ghost var persisted: Option<string>

    /** Both slots start empty; the file holds whatever an earlier session left. */
    constructor (disk: Option<string>)
      ensures shortTerm == [] && longTerm == [] && persisted == disk
    {
      shortTerm := [];
      longTerm := [];
      persisted := disk;
    }

    /** The slots as a value. */
    ghost function State(): Slots
      reads this
    {
      Slots(shortTerm, longTerm, persisted)
    }

    /** getShortTerm(): never null, since a null update is stored as "". */
    function ShortTerm(): string
      reads this
    {
      shortTerm
    }

    /** getLongTerm(). */
    function LongTerm(): string
      reads this
    {
      longTerm
    }

    /** setShortTerm(s). */
    method SetShortTerm(s: Option<string>)
      modifies this
      ensures State() == WithShortTerm(old(State()), s)
    {
      shortTerm := SafeString(s);
    }

    /** setLongTerm(s): writeOk says whether writing userMemory.json succeeds. */
    method SetLongTerm(s: Option<string>, writeOk: bool)
      modifies this
      ensures State() == WithLongTerm(old(State()), s, writeOk)
    {
      longTerm := SafeString(s);
      if writeOk {
        persisted := Some(longTerm);
      }
    }
  }
}
