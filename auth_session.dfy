/** The session cache of src/utils/auth.ts: a session stored in the
    browser's key-value storage under `auth_session` with an absolute expiry
    time in milliseconds. `Date.now()` is a parameter `now`. */
module AuthSession {
  import opened Common

  const SessionKey := "auth_session"
  const DefaultTtlSeconds := 3600

  /** The session's own fields, serialised; opaque to this code. */
  datatype Session = Session(payload: string)

  /** A value of the storage, as `getStoredSession` classifies it:
      - `Blank`: the empty string, which `!raw` treats like a missing key;
      - `Unparsable`: text `JSON.parse` rejects, or whose parse has no
        fields to read (`null`);
      - `Record`: a parsed object; `expiresAt` None when it is missing or
        not a number, so that `now > expiresAt` is false. */
  datatype Stored = Blank | Unparsable(raw: string) | Record(session: Session, expiresAt: Option<int>)

  /** How `getStoredSession` ends for a value. */
  datatype Outcome = Missing | Expired | Corrupt | Valid(session: Session)

  function Classify(v: Option<Stored>, now: int): (o: Outcome)
    ensures o.Missing? <==> v.None? || v == Some(Blank)
    ensures o.Corrupt? <==> v.Some? && v.value.Unparsable?
    ensures o.Expired? <==> v.Some? && v.value.Record? && v.value.expiresAt.Some? && now > v.value.expiresAt.value
    ensures o.Valid? ==> v.Some? && v.value.Record? && o.session == v.value.session
  {
    match v
    case None => Missing
    case Some(Blank) => Missing
    case Some(Unparsable(_)) => Corrupt
    case Some(Record(s, e)) => if e.Some? && now > e.value then Expired else Valid(s)
  }

  /** `{ ...session, expiresAt: now + ttlSeconds * 1000 }`, ttl 3600 s when
      omitted (None). */
  function Fresh(session: Session, ttlSeconds: Option<int>, now: int): (v: Stored)
    ensures v.Record? && v.session == session
    ensures v.expiresAt == Some(now + ttlSeconds.GetOr(DefaultTtlSeconds) * 1000)
  {
    Record(session, Some(now + ttlSeconds.GetOr(DefaultTtlSeconds) * 1000))
  }

  /** `localStorage.getItem(SESSION_KEY)`, None for a missing key. */
  function Lookup(items: map<string, Stored>): (v: Option<Stored>)
    ensures v.Some? <==> SessionKey in items
  {
    if SessionKey in items then Some(items[SessionKey]) else None
  }

  /** The value `getStoredSession` returns for an outcome. */
  function Answer(o: Outcome): (r: Option<Session>)
    ensures r.Some? <==> o.Valid?
  {
    if o.Valid? then Some(o.session) else None
  }

  /** The storage after `getStoredSession`: the entry goes when it is
      expired or unreadable, every other key stays. */
  function AfterRead(items: map<string, Stored>, now: int): (r: map<string, Stored>)
    ensures var o := Classify(Lookup(items), now);
      (o.Expired? || o.Corrupt? ==> SessionKey !in r) && (o.Missing? || o.Valid? ==> r == items)
    ensures forall k :: k != SessionKey ==> (k in r <==> k in items) && (k in r ==> r[k] == items[k])
  {
    var o := Classify(Lookup(items), now);
    if o.Expired? || o.Corrupt? then items - {SessionKey} else items
  }

  class Storage {
    var items: map<string, Stored>

    constructor (items: map<string, Stored>)
      ensures this.items == items
    {
      this.items := items;
    }

    /** `storeSession` */
    method StoreSession(session: Session, ttlSeconds: Option<int>, now: int)
      modifies this
      ensures items == old(items)[SessionKey := Fresh(session, ttlSeconds, now)]
    {
      items := items[SessionKey := Fresh(session, ttlSeconds, now)];
    }

    /** `getStoredSession`: an expired or unreadable entry is removed; a
        missing or blank one is left as it is. */
    method GetStoredSession(now: int) returns (r: Option<Session>)
      modifies this
      ensures r == Answer(Classify(Lookup(old(items)), now))
      ensures items == AfterRead(old(items), now)
    {
      if SessionKey !in items || items[SessionKey] == Blank {
        return None;
      }
      match items[SessionKey]
      case Unparsable(_) =>
        items := items - {SessionKey};
        r := None;
      case Record(s, e) =>
        if e.Some? && now > e.value {
          items := items - {SessionKey};
          r := None;
        } else {
          r := Some(s);
        }
    }

    /** `logout` */
    method Logout()
      modifies this
      ensures items == old(items) - {SessionKey}
    {
      items := items - {SessionKey};
    }
  }

  /** What is read back after `storeSession` at `storedAt`: the session up to
      and including `storedAt + ttl * 1000`, and an expired entry after. */
  lemma StoredSessionLifetime(session: Session, ttlSeconds: Option<int>, storedAt: int, now: int)
    ensures var deadline := storedAt + ttlSeconds.GetOr(DefaultTtlSeconds) * 1000;
      && (now <= deadline ==> Classify(Some(Fresh(session, ttlSeconds, storedAt)), now) == Valid(session))
      && (now > deadline ==> Classify(Some(Fresh(session, ttlSeconds, storedAt)), now) == Expired)
  {
  }

  /** Reading twice at the same time gives the same answer: whatever the
      first read removes could only have given None again. */
  lemma ReadIsIdempotent(items: map<string, Stored>, now: int)
    ensures Answer(Classify(Lookup(AfterRead(items, now)), now)) == Answer(Classify(Lookup(items), now))
    ensures AfterRead(AfterRead(items, now), now) == AfterRead(items, now)
  {
  }

  /** After `logout` a read returns nothing and removes nothing more. */
  lemma NoSessionAfterLogout(items: map<string, Stored>, now: int)
    ensures Answer(Classify(Lookup(items - {SessionKey}), now)).None?
    ensures AfterRead(items - {SessionKey}, now) == items - {SessionKey}
  {
  }
}
