/** A Redis server with a clock: string keys hold hashes or sets, optionally with a deadline.

    The commands are functions of the store, generic in the type of its keys. `Redis`
    runs them on rendered string keys and keeps, as a ghost view, the same store under
    structured keys; every later proof is about that view. */
module RedisModel {
  import opened Basics
  import opened Decimal
  import opened Keys

  /** Names of the hash fields the gateway uses. */
  datatype Field =
    | AgentTypeField | GatewayInstance | Status | LastHeartbeat | ConnectedAt | ActiveSessions
    | AgentIDField | CreatedAt | LastActiveAt
    | Addr | StartedAt | LastKeepalive

  type Fields = map<Field, string>

  datatype Entry =
    | HashEntry(fields: Fields, deadline: Option<nat>)
    | SetEntry(members: set<string>, deadline: Option<nat>)
  {
    predicate LiveAt(t: nat) {
      deadline.Some? ==> t < deadline.value
    }
  }

  /** What reading a missing hash field gives: the empty string. */
  function Get(fields: Fields, f: Field): string {
    if f in fields then fields[f] else ""
  }

  /** Only live entries are kept: `Advance` drops the ones that expire. Time is in milliseconds. */
  datatype Db<K(==)> = Db(now: nat, keys: map<K, Entry>) {

    function At(k: K): Option<Entry> {
      if k in keys then Some(keys[k]) else None
    }

    function With(k: K, e: Option<Entry>): Db<K> {
      this.(keys := if e.Some? then keys[k := e.value] else keys - {k})
    }

    function HGetAll(k: K): Fields {
      if k in keys && keys[k].HashEntry? then keys[k].fields else map[]
    }

    function SMembers(k: K): set<string> {
      if k in keys && keys[k].SetEntry? then keys[k].members else {}
    }

    /** Adds or overwrites fields; an existing deadline stays. */
    function HSet(k: K, fields: Fields): Db<K> {
      match At(k)
      case None => With(k, Some(HashEntry(fields, None)))
      case Some(HashEntry(have, deadline)) => With(k, Some(HashEntry(have + fields, deadline)))
      case Some(SetEntry(_, _)) => this
    }

    /** What an integer field holds; a missing one counts as zero, and an unreadable one holds nothing. */
    function Counter(k: K, f: Field): Option<int> {
      if f in HGetAll(k) then ParseInt(HGetAll(k)[f]) else Some(0)
    }

    /** HINCRBY fails on a field that is no integer, and on a sum that leaves 64 bits. */
    predicate CanHIncrBy(k: K, f: Field, n: int) {
      Counter(k, f).Some? && InInt64(Counter(k, f).value + n)
    }

    function HIncrBy(k: K, f: Field, n: int): Db<K> {
      if CanHIncrBy(k, f, n) then HSet(k, map[f := FormatInt(Counter(k, f).value + n)]) else this
    }

    function SAdd(k: K, m: string): Db<K> {
      match At(k)
      case None => With(k, Some(SetEntry({m}, None)))
      case Some(SetEntry(have, deadline)) => With(k, Some(SetEntry(have + {m}, deadline)))
      case Some(HashEntry(_, _)) => this
    }

    /** A set that loses its last member is gone, and its deadline with it. */
    function SRem(k: K, m: string): Db<K> {
      match At(k)
      case Some(SetEntry(have, deadline)) =>
        if have <= {m} then Del(k) else With(k, Some(SetEntry(have - {m}, deadline)))
      case _ => this
    }

    function Del(k: K): Db<K> {
      With(k, None)
    }

    function Expire(k: K, ttl: nat): Db<K> {
      match At(k)
      case None => this
      case Some(e) => if ttl == 0 then Del(k) else With(k, Some(e.(deadline := Some(now + ttl))))
    }

    function Advance(dt: nat): Db<K> {
      Db(now + dt, map k | k in keys && keys[k].LiveAt(now + dt) :: keys[k])
    }
  }

  type Store = Db<Key>

  /** The clock stays where its reading in seconds fits a 64-bit integer. */
  const MAX_TIME: nat := 1000 * MAX_INT64

  /** What WellKinded asks of one entry. */
  predicate Fits(k: Key, e: Entry, now: nat) {
    && k.WellFormed()
    && (k.IsHash() <==> e.HashEntry?)
    && (e.SetEntry? ==> e.members != {})
    && (e.HashEntry? ==> e.fields != map[])
    && e.LiveAt(now)
  }

  /** Every key is well formed, holds the kind of value its family is used for, and is live. */
  ghost predicate WellKinded(s: Store) {
    && s.now <= MAX_TIME
    && forall k <- s.keys :: Fits(k, s.keys[k], s.now)
  }

  /** The string-keyed store holds exactly the structured store, key by rendered key. */
  ghost predicate Renders(d: Db<string>, s: Store) {
    && d.now == s.now
    && (forall k: Key {:trigger k.Render()} :: k.WellFormed() ==> d.At(k.Render()) == s.At(k))
  }

  /** One command on a rendered key is the same command on the structured key, and touches no other. */
  lemma WithRenders(d: Db<string>, s: Store, k: Key, e: Option<Entry>)
    requires Renders(d, s) && k.WellFormed()
    ensures Renders(d.With(k.Render(), e), s.With(k, e))
  {
    forall k': Key | k'.WellFormed() ensures d.With(k.Render(), e).At(k'.Render()) == s.With(k, e).At(k') {
      assert d.At(k'.Render()) == s.At(k');
      if k.Render() == k'.Render() {
        RenderInjective(k, k');
      }
    }
  }

  lemma AdvanceRenders(d: Db<string>, s: Store, dt: nat)
    requires Renders(d, s)
    ensures Renders(d.Advance(dt), s.Advance(dt))
  {
    forall k: Key | k.WellFormed() ensures d.Advance(dt).At(k.Render()) == s.Advance(dt).At(k) {
      assert d.At(k.Render()) == s.At(k);
    }
  }

  // ----- The store as the registry and the session store use it -----

  function Seconds(s: Store): string {
    FormatInt(s.now / 1000)
  }

  /** The entry, unless it would be expired on arrival. */
  function Unexpired(s: Store, e: Entry): Option<Entry> {
    if e.LiveAt(s.now) then Some(e) else None
  }

  function DeadlineOf(s: Store, k: Key): Option<nat> {
    if k in s.keys then s.keys[k].deadline else None
  }

  /** The set entry with exactly these members: none at all when there are no members. */
  function SetOf(s: Store, k: Key, members: set<string>): Option<Entry> {
    if members == {} then None else Some(SetEntry(members, DeadlineOf(s, k)))
  }

  lemma WithKinded(s: Store, k: Key, e: Option<Entry>)
    requires WellKinded(s)
    requires e.Some? ==> Fits(k, e.value, s.now)
    ensures WellKinded(s.With(k, e))
  {
  }

  lemma SameStore(l: Store, r: Store)
    requires l.now == r.now && forall k :: l.At(k) == r.At(k)
    ensures l == r
  {
    forall k ensures k in l.keys <==> k in r.keys {
      assert l.At(k) == r.At(k);
    }
    forall k | k in l.keys ensures l.keys[k] == r.keys[k] {
      assert l.At(k) == r.At(k);
    }
    assert l.keys == r.keys;
  }

  /** Command pairs as one change of one key. */
  lemma HSetExpire(s: Store, k: Key, fields: Fields, ttl: nat)
    requires k in s.keys ==> s.keys[k].HashEntry?
    ensures s.HSet(k, fields).Expire(k, ttl)
         == s.With(k, Unexpired(s, HashEntry(s.HGetAll(k) + fields, Some(s.now + ttl))))
  {
    assert map[] + fields == fields;
    assert s.HSet(k, fields).Expire(k, ttl).keys
        == s.With(k, Unexpired(s, HashEntry(s.HGetAll(k) + fields, Some(s.now + ttl)))).keys;
  }

  lemma SAddWith(s: Store, k: Key, m: string)
    requires k in s.keys ==> s.keys[k].SetEntry?
    ensures s.SAdd(k, m) == s.With(k, Some(SetEntry(s.SMembers(k) + {m}, DeadlineOf(s, k))))
  {
    assert {} + {m} == {m};
  }

  lemma SAddExpire(s: Store, k: Key, m: string, ttl: nat)
    requires k in s.keys ==> s.keys[k].SetEntry?
    ensures s.SAdd(k, m).Expire(k, ttl) == s.With(k, Unexpired(s, SetEntry(s.SMembers(k) + {m}, Some(s.now + ttl))))
  {
    SAddWith(s, k, m);
    assert s.SAdd(k, m).Expire(k, ttl).keys
        == s.With(k, Unexpired(s, SetEntry(s.SMembers(k) + {m}, Some(s.now + ttl)))).keys;
  }

  /** Removing one member, read back at any key. */
  lemma SRemAt(s: Store, k: Key, m: string, k': Key)
    requires WellKinded(s) && !k.IsHash()
    ensures s.SRem(k, m).now == s.now
    ensures s.SRem(k, m).At(k') == if k' == k then SetOf(s, k, s.SMembers(k) - {m}) else s.At(k')
  {
    assert k in s.keys ==> Fits(k, s.keys[k], s.now);
  }

  /** What an index looks like with one member less. */
  lemma SRemMembers(s: Store, k: Key, m: string)
    requires WellKinded(s) && k.WellFormed()
    ensures WellKinded(s.SRem(k, m)) && s.SRem(k, m).now == s.now
    ensures s.SRem(k, m).SMembers(k) == s.SMembers(k) - {m}
    ensures DeadlineOf(s, k) == None ==> DeadlineOf(s.SRem(k, m), k) == None
    ensures k in s.SRem(k, m).keys ==> k in s.keys && DeadlineOf(s.SRem(k, m), k) == DeadlineOf(s, k)
    ensures forall k' :: k' != k ==> s.SRem(k, m).At(k') == s.At(k')
  {
    if k in s.keys {
      assert Fits(k, s.keys[k], s.now);
    }
  }

  class Redis {
    var db: Db<string>
    ghost var view: Store

    ghost predicate Valid()
      reads this
    {
      Renders(db, view) && WellKinded(view)
    }

    constructor (start: nat)
      requires start <= MAX_TIME
      ensures Valid() && view == Db(start, map[])
    {
      db := Db(start, map[]);
      view := Db(start, map[]);
    }

    method Exists(k: Key) returns (r: bool)
      requires Valid() && k.WellFormed()
      ensures r <==> k in view.keys
    {
      assert db.At(k.Render()) == view.At(k);
      r := k.Render() in db.keys;
    }

    method HGetAll(k: Key) returns (r: Fields)
      requires Valid() && k.WellFormed() && k.IsHash()
      ensures r == view.HGetAll(k)
      ensures r == map[] <==> k !in view.keys
    {
      assert db.At(k.Render()) == view.At(k);
      r := db.HGetAll(k.Render());
    }

    /** The members in an order the caller cannot predict. */
    method SMembers(k: Key) returns (r: seq<string>)
      requires Valid() && k.WellFormed() && !k.IsHash()
      ensures forall m :: m in r <==> m in view.SMembers(k)
      ensures forall a, b :: 0 <= a < b < |r| ==> r[a] != r[b]
      ensures |r| == |view.SMembers(k)|
    {
      assert db.At(k.Render()) == view.At(k);
      var rest := db.SMembers(k.Render());
      r := [];
      while rest != {}
        invariant forall m :: m in r || m in rest <==> m in view.SMembers(k)
        invariant forall m :: m in r ==> m !in rest
        invariant forall a, b :: 0 <= a < b < |r| ==> r[a] != r[b]
        invariant |r| + |rest| == |view.SMembers(k)|
      {
        var m :| m in rest;
        r, rest := r + [m], rest - {m};
      }
    }

    method HSet(k: Key, fields: Fields)
      requires Valid() && k.WellFormed() && k.IsHash() && fields != map[]
      modifies this
      ensures Valid() && view == old(view).HSet(k, fields)
    {
      assert db.At(k.Render()) == view.At(k);
      WithRenders(db, view, k, view.HSet(k, fields).At(k));
      db := db.HSet(k.Render(), fields);
      view := view.HSet(k, fields);
    }

    method HIncrBy(k: Key, f: Field, n: int) returns (ok: bool)
      requires Valid() && k.WellFormed() && k.IsHash()
      modifies this
      ensures Valid() && view == old(view).HIncrBy(k, f, n)
      ensures ok <==> old(view).CanHIncrBy(k, f, n)
    {
      assert db.At(k.Render()) == view.At(k);
      ok := db.CanHIncrBy(k.Render(), f, n);
      WithRenders(db, view, k, view.HIncrBy(k, f, n).At(k));
      db := db.HIncrBy(k.Render(), f, n);
      view := view.HIncrBy(k, f, n);
    }

    method SAdd(k: Key, m: string)
      requires Valid() && k.WellFormed() && !k.IsHash()
      modifies this
      ensures Valid() && view == old(view).SAdd(k, m)
    {
      assert db.At(k.Render()) == view.At(k);
      WithRenders(db, view, k, view.SAdd(k, m).At(k));
      db := db.SAdd(k.Render(), m);
      view := view.SAdd(k, m);
    }

    method SRem(k: Key, m: string)
      requires Valid() && k.WellFormed() && !k.IsHash()
      modifies this
      ensures Valid() && view == old(view).SRem(k, m)
    {
      assert db.At(k.Render()) == view.At(k);
      WithRenders(db, view, k, view.SRem(k, m).At(k));
      db := db.SRem(k.Render(), m);
      view := view.SRem(k, m);
    }

    method Del(k: Key)
      requires Valid() && k.WellFormed()
      modifies this
      ensures Valid() && view == old(view).Del(k)
    {
      assert db.At(k.Render()) == view.At(k);
      WithRenders(db, view, k, None);
      db := db.Del(k.Render());
      view := view.Del(k);
    }

    method Expire(k: Key, ttl: nat)
      requires Valid() && k.WellFormed()
      modifies this
      ensures Valid() && view == old(view).Expire(k, ttl)
    {
      assert db.At(k.Render()) == view.At(k);
      WithRenders(db, view, k, view.Expire(k, ttl).At(k));
      db := db.Expire(k.Render(), ttl);
      view := view.Expire(k, ttl);
    }

    /** Time passes; entries whose deadline is reached disappear. */
    method Advance(dt: nat)
      requires Valid() && view.now + dt <= MAX_TIME
      modifies this
      ensures Valid() && view == old(view).Advance(dt)
    {
      AdvanceRenders(db, view, dt);
      db := db.Advance(dt);
      view := view.Advance(dt);
    }
  }
}
