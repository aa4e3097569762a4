/**
 * Session identity: whether a page load resumes the persisted session or
 * starts a new one (`getOrCreateSessionId`), the activity refresh done on every
 * captured event (`updateSessionTimestamp`) and the removal done by `stop`
 * (`clearSession`).
 */
module SessionIdentity {
  import opened Wrappers
  import opened Text
  import opened TrackerConfig
  import opened BrowserStorage

  const StorageKey: string := "candlestick_session"
  const TimestampKey: string := "candlestick_session_timestamp"

  /** The id a new session gets: `config.sessionId || generateSessionId()`. */
  function MintedId(c: Config, generated: string): string {
    if c.sessionId.Some? && c.sessionId.value != "" then c.sessionId.value else generated
  }

  /**
   * The persisted session is still live at time `now`: both keys hold non-empty
   * strings and the parsed timestamp is strictly less than the window ago
   * (a timestamp `parseInt` cannot read counts as expired).
   */
  predicate Resumable(entries: map<string, string>, c: Config, now: int) {
    && StorageKey in entries && entries[StorageKey] != ""
    && TimestampKey in entries && entries[TimestampKey] != ""
    && var last := ParseInt(entries[TimestampKey]);
       last.Some? && now - last.value < TimeoutMs(c)
  }

  /** What a resolution returns and what it leaves in storage. */
  datatype Resolution = Resolution(id: string, entries: map<string, string>)

  /** The effect of `getOrCreateSessionId` on a store in the given condition. */
  function Resolve(accessible: bool, full: bool, entries: map<string, string>, c: Config,
                   now: nat, generated: string): (r: Resolution)
    ensures r.id == MintedId(c, generated) || (StorageKey in entries && r.id == entries[StorageKey])
    ensures !accessible || full ==> r.entries == entries
    ensures r.entries.Keys <= entries.Keys + {StorageKey, TimestampKey}
    ensures forall k :: k in entries && k != StorageKey && k != TimestampKey
                        ==> k in r.entries && r.entries[k] == entries[k]
  {
    if !accessible || full then
      // a read or the first write throws; the catch block hands out an ephemeral id
      Resolution(MintedId(c, generated), entries)
    else if Resumable(entries, c, now) then
      Resolution(entries[StorageKey], entries[TimestampKey := NatToString(now)])
    else
      var id := MintedId(c, generated);
      Resolution(id, entries[StorageKey := id][TimestampKey := NatToString(now)])
  }

  /** `getOrCreateSessionId`, with the clock reading and the generated id passed in. */
  method GetOrCreateSessionId(store: LocalStorage, c: Config, now: nat, generated: string)
    returns (id: string)
    modifies store
    ensures Resolution(id, store.entries)
         == Resolve(store.accessible, store.full, old(store.entries), c, now, generated)
  {
    var storedId := store.GetItem(StorageKey);
    if storedId.Threw? {
      return MintedId(c, generated);
    }
    var storedTimestamp := store.GetItem(TimestampKey);
    if storedTimestamp.Threw? {
      return MintedId(c, generated);
    }
    if storedId.value.Some? && storedId.value.value != ""
      && storedTimestamp.value.Some? && storedTimestamp.value.value != ""
    {
      var lastActivity := ParseInt(storedTimestamp.value.value);
      var timeoutMs := TimeoutMs(c);
      if lastActivity.Some? && now - lastActivity.value < timeoutMs {
        var threw := store.SetItem(TimestampKey, NatToString(now));
        if threw {
          return MintedId(c, generated);
        }
        return storedId.value.value;
      }
    }
    var newId := MintedId(c, generated);
    var threw := store.SetItem(StorageKey, newId);
    if threw {
      return MintedId(c, generated);
    }
    threw := store.SetItem(TimestampKey, NatToString(now));
    if threw {
      return MintedId(c, generated);
    }
    id := newId;
  }

  /** The store after `updateSessionTimestamp` at time `now`. */
  function Touched(accessible: bool, full: bool, entries: map<string, string>, now: nat): map<string, string> {
    if accessible && !full then entries[TimestampKey := NatToString(now)] else entries
  }

  /** `updateSessionTimestamp`: record activity at `now`; a storage failure is ignored. */
  method UpdateSessionTimestamp(store: LocalStorage, now: nat)
    modifies store
    ensures store.entries == Touched(store.accessible, store.full, old(store.entries), now)
  {
    var _ := store.SetItem(TimestampKey, NatToString(now));
  }

  /** The store after `clearSession`. */
  function Cleared(accessible: bool, entries: map<string, string>): map<string, string> {
    if accessible then entries - {StorageKey, TimestampKey} else entries
  }

  /** `clearSession`: forget the persisted session; a storage failure is ignored. */
  method ClearSession(store: LocalStorage)
    modifies store
    ensures store.entries == Cleared(store.accessible, old(store.entries))
  {
    var threw := store.RemoveItem(StorageKey);
    if !threw {
      threw := store.RemoveItem(TimestampKey);
    }
  }

  // ---------------------------------------------------------------------------
  // Properties of resolution

  /** A live session is resumed: its id is returned and its timestamp slides to `now`. */
  lemma ResolveResumesLiveSession(entries: map<string, string>, c: Config, now: nat, generated: string)
    requires Resumable(entries, c, now)
    ensures Resolve(true, false, entries, c, now, generated)
         == Resolution(entries[StorageKey], entries[TimestampKey := NatToString(now)])
  {
  }

  /**
   * With a usable store and no live session, the minted id is returned and both
   * keys are overwritten with it and `now`; every other key is untouched.
   */
  lemma ResolveMintsOtherwise(entries: map<string, string>, c: Config, now: nat, generated: string)
    requires !Resumable(entries, c, now)
    ensures var r := Resolve(true, false, entries, c, now, generated);
            && r.id == MintedId(c, generated)
            && r.entries.Keys == entries.Keys + {StorageKey, TimestampKey}
            && r.entries[StorageKey] == r.id
            && r.entries[TimestampKey] == NatToString(now)
            && forall k :: k in entries && k != StorageKey && k != TimestampKey ==> r.entries[k] == entries[k]
  {
  }

  /** When storage throws, an id is still produced and nothing is written. */
  lemma ResolveWithoutStorage(accessible: bool, full: bool, entries: map<string, string>, c: Config,
                              now: nat, generated: string)
    requires !accessible || full
    ensures Resolve(accessible, full, entries, c, now, generated) == Resolution(MintedId(c, generated), entries)
  {
  }

  /** The id handed out is never empty as long as a generated id is not. */
  lemma ResolvedIdNonEmpty(accessible: bool, full: bool, entries: map<string, string>, c: Config,
                           now: nat, generated: string)
    requires generated != ""
    ensures Resolve(accessible, full, entries, c, now, generated).id != ""
  {
  }

  /** Inactivity of exactly the window counts as expired. */
  lemma ResolveBoundaryExpires(entries: map<string, string>, c: Config, now: nat, generated: string)
    requires StorageKey in entries && TimestampKey in entries
    requires ParseInt(entries[TimestampKey]) == Some(now - TimeoutMs(c))
    ensures Resolve(true, false, entries, c, now, generated).id == MintedId(c, generated)
  {
  }

  /** A zero `sessionTimeout` behaves exactly like the thirty-minute default. */
  lemma ZeroTimeoutIsDefault(accessible: bool, full: bool, entries: map<string, string>, c: Config,
                             now: nat, generated: string)
    requires c.sessionTimeout == Some(0)
    ensures Resolve(accessible, full, entries, c, now, generated)
         == Resolve(accessible, full, entries, c.(sessionTimeout := Some(DefaultSessionTimeout)), now, generated)
  {
  }

  /**
   * Two page loads less than the window apart share a session: the second
   * resolution reads back what the first one wrote and resumes its id.
   */
  lemma ReloadWithinWindowResumes(entries: map<string, string>, c: Config, t1: nat, t2: nat,
                                  g1: string, g2: string)
    requires g1 != ""
    requires t2 - t1 < TimeoutMs(c)
    ensures var first := Resolve(true, false, entries, c, t1, g1);
            Resolve(true, false, first.entries, c, t2, g2).id == first.id
  {
    var first := Resolve(true, false, entries, c, t1, g1);
    assert first.entries[TimestampKey] == NatToString(t1);
    ParseIntOfNatToString(t1);
    assert Resumable(first.entries, c, t2);
  }

  /** A page load at least the window after the previous one starts a new session. */
  lemma ReloadAfterWindowMints(entries: map<string, string>, c: Config, t1: nat, t2: nat,
                               g1: string, g2: string)
    requires t2 - t1 >= TimeoutMs(c)
    ensures var first := Resolve(true, false, entries, c, t1, g1);
            Resolve(true, false, first.entries, c, t2, g2).id == MintedId(c, g2)
  {
    var first := Resolve(true, false, entries, c, t1, g1);
    ParseIntOfNatToString(t1);
    assert !Resumable(first.entries, c, t2);
  }

  /** Activity recorded at `t1` keeps a persisted session alive for a load at `t2` within the window. */
  lemma ActivityKeepsSessionAlive(entries: map<string, string>, c: Config, t1: nat, t2: nat, generated: string)
    requires StorageKey in entries && entries[StorageKey] != ""
    requires t2 - t1 < TimeoutMs(c)
    ensures Resolve(true, false, Touched(true, false, entries, t1), c, t2, generated).id == entries[StorageKey]
  {
    ParseIntOfNatToString(t1);
    assert Resumable(Touched(true, false, entries, t1), c, t2);
  }

  /** After `clearSession` on an accessible store, the next load starts a new session. */
  lemma ClearedStoreMints(entries: map<string, string>, c: Config, now: nat, generated: string)
    ensures Resolve(true, false, Cleared(true, entries), c, now, generated).id == MintedId(c, generated)
  {
  }
}
