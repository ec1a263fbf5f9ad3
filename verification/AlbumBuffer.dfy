/**
 * app/services/album_buffer.py: parts of an album are collected under a group
 * key and finalized once no part has come for the debounce time.
 */
module AlbumBuffer {
  import opened Wrappers

  type Key = string

  /** A part of an album; `at` is when it was added. */
  datatype Part = Part(payload: int, at: int)

  datatype Meta = Meta(tenant: int, chat: int, telegram: int)

  /** A finalized group; `at` is when it was claimed. */
  datatype Group = Group(key: Key, meta: Meta, parts: seq<Part>, at: int)

  // ---- group keys ----------------------------------------------------------------

  function Digit(d: nat): char
    requires d < 10
  {
    ['0', '1', '2', '3', '4', '5', '6', '7', '8', '9'][d]
  }

  function Decimal(n: nat): string {
    if n < 10 then [Digit(n)] else Decimal(n / 10) + [Digit(n % 10)]
  }

  function Text(n: int): string {
    if n < 0 then "-" + Decimal(-n) else Decimal(n)
  }

  function GroupKey(tenant: int, chat: int, mediaGroup: string): Key {
    Text(tenant) + ":" + Text(chat) + ":" + mediaGroup
  }

  lemma {:induction false} DecimalDigits(n: nat)
    ensures Decimal(n) != "" && forall c :: c in Decimal(n) ==> c != ':' && c != '-'
  {
    if n >= 10 {
      DecimalDigits(n / 10);
    }
  }

  lemma {:induction false} DecimalInjective(m: nat, n: nat)
    requires Decimal(m) == Decimal(n)
    ensures m == n
  {
    var a, b := Decimal(m), Decimal(n);
    if m >= 10 {
      DecimalDigits(m / 10);
    }
    if n >= 10 {
      DecimalDigits(n / 10);
    }
    assert a[|a| - 1] == b[|b| - 1] && m % 10 == n % 10;
    if m >= 10 {
      assert Decimal(m / 10) == a[..|a| - 1] && Decimal(n / 10) == b[..|b| - 1];
      DecimalInjective(m / 10, n / 10);
    }
  }

  lemma TextInjective(m: int, n: int)
    requires Text(m) == Text(n)
    ensures m == n
  {
    DecimalDigits(Abs(m));
    DecimalDigits(Abs(n));
    if m < 0 {
      assert Text(m)[0] == '-' && Text(m)[1..] == Decimal(-m);
      assert Text(n)[0] in Text(n);
      assert n < 0 && Text(n)[1..] == Decimal(-n);
      DecimalInjective(-m, -n);
    } else {
      assert Text(m)[0] in Decimal(m);
      DecimalInjective(m, n);
    }
  }

  lemma TextPlain(n: int)
    ensures ':' !in Text(n)
  {
    DecimalDigits(Abs(n));
  }

  /** Text before the first colon is determined. */
  lemma {:induction false} BeforeColon(a: string, r: string, b: string, s: string)
    requires ':' !in a && ':' !in b
    requires a + ":" + r == b + ":" + s
    ensures a == b && r == s
  {
    var x, y := a + ":" + r, b + ":" + s;
    if a == "" || b == "" {
      assert x[0] == y[0];
      assert x[1..] == y[1..];
      assert a == "" && b == "";
      assert x[1..] == r && y[1..] == s;
    } else {
      assert a[0] == x[0] == y[0] == b[0];
      assert x[1..] == a[1..] + ":" + r && y[1..] == b[1..] + ":" + s;
      BeforeColon(a[1..], r, b[1..], s);
    }
  }

  /** Albums of two tenants, or of two chats, never share a key. */
  lemma KeysNeverMerge(t1: int, c1: int, g1: string, t2: int, c2: int, g2: string)
    ensures GroupKey(t1, c1, g1) == GroupKey(t2, c2, g2) <==> t1 == t2 && c1 == c2 && g1 == g2
  {
    if GroupKey(t1, c1, g1) == GroupKey(t2, c2, g2) {
      TextPlain(t1);
      TextPlain(t2);
      TextPlain(c1);
      TextPlain(c2);
      hide Text;
      assert GroupKey(t1, c1, g1) == Text(t1) + ":" + (Text(c1) + ":" + g1);
      assert GroupKey(t2, c2, g2) == Text(t2) + ":" + (Text(c2) + ":" + g2);
      BeforeColon(Text(t1), Text(c1) + ":" + g1, Text(t2), Text(c2) + ":" + g2);
      BeforeColon(Text(c1), g1, Text(c2), g2);
      TextInjective(t1, t2);
      TextInjective(c1, c2);
    }
  }

  // ---- what has come out -----------------------------------------------------------

  /** The groups of one key, in the order of their claims. */
  function Of(groups: seq<Group>, k: Key): seq<Group> {
    if groups == [] then []
    else
      var front, g := Of(groups[..|groups| - 1], k), groups[|groups| - 1];
      if g.key == k then front + [g] else front
  }

  function Flatten(groups: seq<Group>): seq<Part> {
    if groups == [] then [] else Flatten(groups[..|groups| - 1]) + groups[|groups| - 1].parts
  }

  lemma OfSnoc(groups: seq<Group>, g: Group, k: Key)
    ensures Of(groups + [g], k) == if g.key == k then Of(groups, k) + [g] else Of(groups, k)
  {
    assert (groups + [g])[..|groups|] == groups;
  }

  lemma FlattenSnoc(groups: seq<Group>, g: Group)
    ensures Flatten(groups + [g]) == Flatten(groups) + g.parts
  {
    assert (groups + [g])[..|groups|] == groups;
  }

  lemma {:induction false} OfMembers(groups: seq<Group>, k: Key)
    ensures forall g :: g in Of(groups, k) <==> g in groups && g.key == k
  {
    if groups != [] {
      OfMembers(groups[..|groups| - 1], k);
    }
  }

  function Last(parts: seq<Part>): Part
    requires parts != []
  {
    parts[|parts| - 1]
  }

  function Gap(parts: seq<Part>, i: int): int
    requires 0 < i < |parts|
  {
    parts[i].at - parts[i - 1].at
  }

  /** From the last part of one group to the first of the next. */
  function GapBefore(groups: seq<Group>, i: int): int
    requires 0 < i < |groups| && forall g :: g in groups ==> g.parts != []
  {
    groups[i].parts[0].at - Last(groups[i - 1].parts).at
  }

  /** Between two groups of a key, and between the last one and what waits, lies at least the debounce. */
  ghost predicate Spaced(groups: seq<Group>, waiting: seq<Part>, debounce: int) {
    && (forall g :: g in groups ==> g.parts != [])
    && (forall i :: 0 < i < |groups| ==> GapBefore(groups, i) >= debounce)
    && (groups != [] && waiting != [] ==> waiting[0].at - Last(groups[|groups| - 1].parts).at >= debounce)
  }

  lemma {:induction false} FlattenStarts(groups: seq<Group>)
    requires groups != [] && forall g :: g in groups ==> g.parts != []
    ensures groups[0].parts <= Flatten(groups)
    ensures |groups| > 1 ==>
              |Flatten(groups)| > |groups[0].parts| && Flatten(groups)[|groups[0].parts|] == groups[1].parts[0]
  {
    var front := groups[..|groups| - 1];
    if |groups| > 1 {
      assert forall g :: g in front ==> g in groups;
      FlattenStarts(front);
      if |groups| == 2 {
        assert front == [groups[0]];
        assert Flatten(front) == Flatten([]) + groups[0].parts;
      }
    } else {
      assert groups == [groups[0]] && Flatten(front) == [];
    }
  }

  lemma BoundaryIsWide(groups: seq<Group>, parts: seq<Part>, debounce: int)
    requires Spaced(groups, [], debounce) && Flatten(groups) == parts && |groups| > 1
    ensures exists i :: 0 < i < |parts| && Gap(parts, i) >= debounce
  {
    FlattenStarts(groups);
    var i := |groups[0].parts|;
    assert groups[0] in groups;
    assert parts[i - 1] == Last(groups[0].parts);
    assert GapBefore(groups, 1) >= debounce;
    assert Gap(parts, i) >= debounce;
  }

  /** Parts that came closer together than the debounce, once all are out, are one group in their order. */
  lemma OneBurstOneGroup(groups: seq<Group>, parts: seq<Part>, debounce: int)
    requires Spaced(groups, [], debounce) && Flatten(groups) == parts && parts != []
    requires forall i :: 0 < i < |parts| ==> Gap(parts, i) < debounce
    ensures |groups| == 1 && groups[0].parts == parts
  {
    FlattenStarts(groups);
    var first := groups[0].parts;
    assert groups[0] in groups;
    if |groups| > 1 {
      BoundaryIsWide(groups, parts, debounce);
      assert false;
    }
    assert groups == [groups[0]];
    assert Flatten(groups[..0]) == [];
  }

  // ---- what holds of each key ------------------------------------------------------

  /**
   * Every part added is in one emitted group or still waits, in arrival order; no
   * group came out before the debounce after its last part; and if the clock
   * never went back, the debounce lies between groups.
   */
  ghost predicate KeySound(groups: seq<Group>, waiting: seq<Part>, added: seq<Part>, debounce: int, monotone: bool,
                           clock: int) {
    && Flatten(groups) + waiting == added
    && (forall g :: g in groups ==>
        g.parts != [] && Last(g.parts).at + debounce <= g.at && (monotone ==> g.at <= clock))
    && (monotone ==> Spaced(groups, waiting, debounce))
  }

  lemma TickSound(groups: seq<Group>, waiting: seq<Part>, added: seq<Part>, debounce: int, monotone: bool, clock: int,
                  now: int)
    requires KeySound(groups, waiting, added, debounce, monotone, clock)
    ensures KeySound(groups, waiting, added, debounce, monotone && now >= clock, Max(clock, now))
  {
  }

  lemma AddSound(groups: seq<Group>, waiting: seq<Part>, added: seq<Part>, debounce: int, monotone: bool, clock: int,
                 part: Part)
    requires KeySound(groups, waiting, added, debounce, monotone, clock)
    ensures KeySound(groups, waiting + [part], added + [part], debounce, monotone && part.at >= clock,
                     Max(clock, part.at))
  {
    assert Flatten(groups) + (waiting + [part]) == Flatten(groups) + waiting + [part];
    if monotone && waiting == [] && groups != [] {
      assert groups[|groups| - 1] in groups;
    }
  }

  lemma ClaimSound(groups: seq<Group>, g: Group, added: seq<Part>, debounce: int, monotone: bool, clock: int)
    requires KeySound(groups, g.parts, added, debounce, monotone, clock) && g.parts != []
    requires Last(g.parts).at + debounce <= g.at && (monotone ==> g.at <= clock)
    ensures KeySound(groups + [g], [], added, debounce, monotone, clock)
  {
    FlattenSnoc(groups, g);
    var more := groups + [g];
    forall i | monotone && 0 < i < |more| ensures GapBefore(more, i) >= debounce {
      if i < |groups| {
        assert GapBefore(groups, i) >= debounce;
      }
    }
    assert Flatten(groups + [g]) + [] == Flatten(groups) + g.parts;
  }

  // ---- the buffer --------------------------------------------------------------------

  function SetOf(keys: seq<Key>): set<Key> {
    set k | k in keys
  }

  /** The keys due at `now`, each once, earliest first. */
  ghost predicate InDueOrder(keys: seq<Key>, due: map<Key, int>, now: int) {
    && (forall k :: k in keys <==> k in due && due[k] <= now)
    && (forall i, j :: 0 <= i < j < |keys| ==> keys[i] != keys[j] && due[keys[i]] <= due[keys[j]])
  }

  function Get(m: map<Key, seq<Part>>, k: Key): seq<Part> {
    if k in m then m[k] else []
  }

  ghost predicate AllSound(emitted: seq<Group>, data: map<Key, seq<Part>>, added: map<Key, seq<Part>>, debounce: int,
                           monotone: bool, clock: int) {
    forall k :: KeySound(Of(emitted, k), Get(data, k), Get(added, k), debounce, monotone, clock)
  }

  /** What waits is due the debounce after its last part. */
  ghost predicate AllFiled(data: map<Key, seq<Part>>, due: map<Key, int>, debounce: int) {
    && data.Keys == due.Keys
    && forall k :: k in data ==> data[k] != [] && due[k] == Last(data[k]).at + debounce
  }

  lemma AllTick(emitted: seq<Group>, data: map<Key, seq<Part>>, added: map<Key, seq<Part>>, debounce: int,
                monotone: bool, clock: int, now: int)
    requires AllSound(emitted, data, added, debounce, monotone, clock)
    ensures AllSound(emitted, data, added, debounce, monotone && now >= clock, Max(clock, now))
  {
    hide KeySound, Of, Get;
    forall k ensures KeySound(Of(emitted, k), Get(data, k), Get(added, k), debounce, monotone && now >= clock,
                              Max(clock, now)) {
      TickSound(Of(emitted, k), Get(data, k), Get(added, k), debounce, monotone, clock, now);
    }
  }

  lemma AllPush(emitted: seq<Group>, data: map<Key, seq<Part>>, added: map<Key, seq<Part>>, debounce: int,
                monotone: bool, clock: int, k: Key, part: Part)
    requires AllSound(emitted, data, added, debounce, monotone, clock)
    requires part.at <= clock && (monotone ==> part.at >= clock)
    ensures AllSound(emitted, data[k := Get(data, k) + [part]], added[k := Get(added, k) + [part]], debounce,
                     monotone, clock)
  {
    hide KeySound, Of;
    var data1, added1 := data[k := Get(data, k) + [part]], added[k := Get(added, k) + [part]];
    forall j ensures KeySound(Of(emitted, j), Get(data1, j), Get(added1, j), debounce, monotone, clock) {
      if j == k {
        AddSound(Of(emitted, k), Get(data, k), Get(added, k), debounce, monotone, clock, part);
      } else {
        assert Get(data1, j) == Get(data, j) && Get(added1, j) == Get(added, j);
      }
    }
  }

  lemma AllClaim(emitted: seq<Group>, data: map<Key, seq<Part>>, added: map<Key, seq<Part>>, debounce: int,
                 monotone: bool, clock: int, g: Group)
    requires AllSound(emitted, data, added, debounce, monotone, clock)
    requires g.key in data && g.parts == data[g.key] != []
    requires Last(g.parts).at + debounce <= g.at && (monotone ==> g.at <= clock)
    ensures AllSound(emitted + [g], data - {g.key}, added, debounce, monotone, clock)
  {
    hide KeySound, Of;
    var data1 := data - {g.key};
    forall j ensures KeySound(Of(emitted + [g], j), Get(data1, j), Get(added, j), debounce, monotone, clock) {
      OfSnoc(emitted, g, j);
      if j == g.key {
        ClaimSound(Of(emitted, j), g, Get(added, j), debounce, monotone, clock);
      } else {
        assert Get(data1, j) == Get(data, j);
      }
    }
  }

  lemma NoneYet(keys: seq<Key>)
    ensures SetOf(keys[..0]) == {}
  {
  }

  /** The next key is due, and not among those before it. */
  lemma NextKey(keys: seq<Key>, due: map<Key, int>, now: int, i: nat)
    requires InDueOrder(keys, due, now) && i < |keys|
    ensures keys[i] in due && due[keys[i]] <= now && keys[i] !in SetOf(keys[..i])
    ensures SetOf(keys[..i + 1]) == SetOf(keys[..i]) + {keys[i]}
  {
    assert keys[i] in keys;
  }

  lemma MaxBounds(a: int, b: int)
    ensures b <= Max(a, b) && (b >= a ==> Max(a, b) == b)
  {
  }

  lemma PushFiled(data: map<Key, seq<Part>>, due: map<Key, int>, debounce: int, k: Key, part: Part)
    requires AllFiled(data, due, debounce)
    ensures AllFiled(data[k := Get(data, k) + [part]], due[k := part.at + debounce], debounce)
  {
  }

  class AlbumBuffer {
    const debounce: int
    var data: map<Key, seq<Part>>
    var meta: map<Key, Meta>
    var due: map<Key, int>
    ghost var added: map<Key, seq<Part>>
    ghost var emitted: seq<Group>
    /** The latest instant anyone has used, and whether instants never went back. */
    ghost var clock: int
    ghost var monotone: bool

    ghost predicate Valid()
      reads this
    {
      && data.Keys == meta.Keys
      && AllFiled(data, due, debounce)
      && AllSound(emitted, data, added, debounce, monotone, clock)
    }

    constructor (debounce: int, now: int)
      ensures Valid() && this.debounce == debounce && emitted == [] && added == map[] && data == map[] && monotone
              && clock == now
    {
      this.debounce := debounce;
      data, meta, due, added, emitted := map[], map[], map[], map[], [];
      clock, monotone := now, true;
    }

    ghost method Tick(now: int)
      requires Valid()
      modifies this`clock, this`monotone
      ensures Valid() && clock == Max(old(clock), now) && monotone == (old(monotone) && now >= old(clock))
    {
      hide AllSound;
      AllTick(emitted, data, added, debounce, monotone, clock, now);
      monotone := monotone && now >= clock;
      clock := Max(clock, now);
    }

    /** Appends the part, stores the metadata and puts the due time off. */
    method Add(k: Key, m: Meta, payload: int, now: int)
      requires Valid()
      modifies this
      ensures Valid() && emitted == old(emitted)
      ensures added == old(added)[k := Get(old(added), k) + [Part(payload, now)]]
      ensures data == old(data)[k := Get(old(data), k) + [Part(payload, now)]]
      ensures meta == old(meta)[k := m] && due == old(due)[k := now + debounce]
      ensures monotone == (old(monotone) && now >= old(clock)) && clock == Max(old(clock), now)
    {
      hide AllSound, AllFiled, Get, Max;
      Tick(now);
      var part := Part(payload, now);
      PushFiled(data, due, debounce, k, part);
      MaxBounds(old(clock), now);
      AllPush(emitted, data, added, debounce, monotone, clock, k, part);
      data := data[k := Get(data, k) + [part]];
      meta := meta[k := m];
      due := due[k := now + debounce];
      added := added[k := Get(added, k) + [part]];
    }

    /** Takes one group out: its key, its data and its place among the due groups. */
    method Claim(k: Key, now: int) returns (g: Group)
      requires Valid() && k in data && due[k] <= now
      requires monotone ==> now <= clock
      modifies this`data, this`meta, this`due, this`emitted
      ensures Valid() && g == Group(k, old(meta)[k], old(data)[k], now)
      ensures emitted == old(emitted) + [g]
      ensures data == old(data) - {k} && meta == old(meta) - {k} && due == old(due) - {k}
    {
      hide AllSound;
      g := Group(k, meta[k], data[k], now);
      AllClaim(emitted, data, added, debounce, monotone, clock, g);
      due := due - {k};
      data, meta := data - {k}, meta - {k};
      emitted := emitted + [g];
    }

    method RangeByScore(now: int) returns (keys: seq<Key>)
      ensures InDueOrder(keys, due, now)
    {
      keys := [];
      var todo := set k | k in due && due[k] <= now;
      while todo != {}
        invariant forall k :: k in keys || k in todo <==> k in due && due[k] <= now
        invariant forall k :: k in todo ==> k !in keys
        invariant forall i, j :: 0 <= i < j < |keys| ==> keys[i] != keys[j] && due[keys[i]] <= due[keys[j]]
        invariant forall i, k :: 0 <= i < |keys| && k in todo ==> due[keys[i]] <= due[k]
        decreases |todo|
      {
        Earliest(todo, due);
        var k :| k in todo && forall j :: j in todo ==> due[k] <= due[j];
        todo := todo - {k};
        keys := keys + [k];
      }
    }

    /**
     * Claims exactly the groups whose debounce has elapsed, each whole and once,
     * in the order in which they fell due.
     */
    method PopDue(now: int) returns (out: seq<Group>, ghost keys: seq<Key>)
      requires Valid()
      modifies this
      ensures Valid() && added == old(added) && emitted == old(emitted) + out
      ensures InDueOrder(keys, old(due), now) && |out| == |keys|
      ensures forall i :: 0 <= i < |out| ==>
                keys[i] in old(data) && keys[i] in old(meta)
                && out[i] == Group(keys[i], old(meta)[keys[i]], old(data)[keys[i]], now)
      ensures data == old(data) - SetOf(keys) && meta == old(meta) - SetOf(keys) && due == old(due) - SetOf(keys)
      ensures monotone == (old(monotone) && now >= old(clock)) && clock == Max(old(clock), now)
    {
      hide Valid, InDueOrder;
      Tick(now);
      var groupKeys := RangeByScore(now);
      keys := groupKeys;
      out := ClaimAll(groupKeys, now);
    }

    method ClaimAll(keys: seq<Key>, now: int) returns (out: seq<Group>)
      requires Valid() && InDueOrder(keys, due, now) && (monotone ==> now <= clock)
      modifies this`data, this`meta, this`due, this`emitted
      ensures Valid() && emitted == old(emitted) + out && |out| == |keys|
      ensures forall i :: 0 <= i < |out| ==>
                keys[i] in old(data) && keys[i] in old(meta)
                && out[i] == Group(keys[i], old(meta)[keys[i]], old(data)[keys[i]], now)
      ensures data == old(data) - SetOf(keys) && meta == old(meta) - SetOf(keys) && due == old(due) - SetOf(keys)
    {
      hide AllSound, AllFiled, InDueOrder, SetOf;
      out := [];
      SameKeys(data, due, debounce);
      NoneYet(keys);
      while |out| < |keys|
        invariant |out| <= |keys| && Valid() && emitted == old(emitted) + out
        invariant data == old(data) - SetOf(keys[..|out|])
        invariant meta == old(meta) - SetOf(keys[..|out|])
        invariant due == old(due) - SetOf(keys[..|out|])
        invariant forall j :: 0 <= j < |out| ==>
                    keys[j] in old(data) && keys[j] in old(meta)
                    && out[j] == Group(keys[j], old(meta)[keys[j]], old(data)[keys[j]], now)
        decreases |keys| - |out|
      {
        NextKey(keys, old(due), now, |out|);
        var g := Claim(keys[|out|], now);
        out := out + [g];
      }
      assert keys[..|keys|] == keys;
    }
  }

  /** An album whose parts came quickly and of which none waits any more came out as one group. */
  lemma AlbumComesOutOnce(b: AlbumBuffer, k: Key)
    requires b.Valid() && b.monotone && k in b.added && k !in b.data && b.added[k] != []
    requires forall i :: 0 < i < |b.added[k]| ==> Gap(b.added[k], i) < b.debounce
    ensures exists g ::
              g in b.emitted && Of(b.emitted, k) == [g] && g.parts == b.added[k]
              && g.at >= Last(g.parts).at + b.debounce
  {
    var groups := Of(b.emitted, k);
    assert KeySound(groups, Get(b.data, k), Get(b.added, k), b.debounce, b.monotone, b.clock);
    assert Flatten(groups) == b.added[k];
    OneBurstOneGroup(groups, b.added[k], b.debounce);
    OfMembers(b.emitted, k);
    assert groups == [groups[0]] && groups[0] in groups;
  }

  lemma SameKeys(data: map<Key, seq<Part>>, due: map<Key, int>, debounce: int)
    requires AllFiled(data, due, debounce)
    ensures data.Keys == due.Keys
  {
  }

  lemma {:induction false} Earliest(todo: set<Key>, at: map<Key, int>)
    requires todo != {} && todo <= at.Keys
    ensures exists k :: k in todo && forall j :: j in todo ==> at[k] <= at[j]
    decreases |todo|
  {
    var k :| k in todo;
    var rest := todo - {k};
    if rest != {} {
      Earliest(rest, at);
      var m :| m in rest && forall j :: j in rest ==> at[m] <= at[j];
      var best := if at[k] <= at[m] then k else m;
      assert forall j :: j in todo ==> j == k || j in rest;
      assert forall j :: j in todo ==> at[best] <= at[j];
    } else {
      assert todo == {k};
    }
  }
}
