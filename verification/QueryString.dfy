/** CQueryString of amiproc/http.h: CheckEscape, Parse and Get. */
module QueryString {
  import opened CStrings

  /** CheckCRLF: which characters to cut at and which to drop. */
  datatype Escapes = Escapes(cr: bool, lf: bool, ws: bool, tab: bool) {
    predicate Cuts(c: char) { (c == '\r' && cr) || (c == '\n' && lf) }
    predicate Drops(c: char) { (c == ' ' && ws) || (c == '\t' && tab) }
    predicate None() { !cr && !lf && !ws && !tab }
  }

  const MAX_PARSE: nat := 128

  // ------------------------------------------------------------------
  // CheckEscape
  // ------------------------------------------------------------------

  /** The part in front of the first character to cut at. */
  function Uncut(s: string, m: Escapes): string {
    if s == "" || m.Cuts(s[0]) then "" else [s[0]] + Uncut(s[1..], m)
  }

  function Dropped(s: string, m: Escapes): string {
    if s == "" then "" else (if m.Drops(s[0]) then "" else [s[0]]) + Dropped(s[1..], m)
  }

  /** Cut at the first selected CR or LF, then drop the selected spaces and tabs. */
  function Clean(s: string, m: Escapes): string {
    Dropped(Uncut(s, m), m)
  }

  /** The same in one pass from the front. */
  lemma {:induction false} CleanStep(s: string, m: Escapes)
    requires s != ""
    ensures Clean(s, m) == if m.Cuts(s[0]) then "" else if m.Drops(s[0]) then Clean(s[1..], m) else [s[0]] + Clean(s[1..], m)
  {
    if !m.Cuts(s[0]) {
      assert Uncut(s, m)[1..] == Uncut(s[1..], m);
      assert "" + Clean(s[1..], m) == Clean(s[1..], m);
    }
  }

  lemma {:induction false} CleanIsShorter(s: string, m: Escapes)
    ensures |Clean(s, m)| <= |s| && (NUL !in s ==> NUL !in Clean(s, m))
  {
    if s != "" {
      CleanStep(s, m);
      CleanIsShorter(s[1..], m);
      assert s == [s[0]] + s[1..];
    }
  }

  /** What is cut at or dropped does not occur in the result. */
  lemma {:induction false} CleanIsClean(s: string, m: Escapes)
    ensures m.cr ==> '\r' !in Clean(s, m)
    ensures m.lf ==> '\n' !in Clean(s, m)
    ensures m.ws ==> ' ' !in Clean(s, m)
    ensures m.tab ==> '\t' !in Clean(s, m)
  {
    if s != "" {
      CleanStep(s, m);
      CleanIsClean(s[1..], m);
    }
  }

  /** None of the selected characters is in s. */
  predicate Free(s: string, m: Escapes) {
    (m.cr ==> '\r' !in s) && (m.lf ==> '\n' !in s) && (m.ws ==> ' ' !in s) && (m.tab ==> '\t' !in s)
  }

  /** Nothing else is touched. */
  lemma {:induction false} CleanNothing(s: string, m: Escapes)
    requires Free(s, m)
    ensures Clean(s, m) == s
  {
    if s != "" {
      CleanStep(s, m);
      assert s[0] in s;
      CleanNothing(s[1..], m);
    }
  }

  /** A selected CR or LF ends the result, whatever follows. */
  lemma {:induction false} CleanCuts(s: string, c: char, t: string, m: Escapes)
    requires (c == '\r' && m.cr) || (c == '\n' && m.lf)
    ensures Clean(s + [c] + t, m) == Clean(s, m)
  {
    hide Clean;
    var whole := s + [c] + t;
    CleanStep(whole, m);
    if s == "" {
      CleanIsShorter(s, m);
    } else {
      CleanStep(s, m);
      assert whole[1..] == s[1..] + [c] + t;
      CleanCuts(s[1..], c, t, m);
    }
  }

  /** A selected space or tab in front of the cut is dropped alone: what is before and behind it stays. */
  lemma {:induction false} CleanDrops(s: string, c: char, t: string, m: Escapes)
    requires (c == ' ' && m.ws) || (c == '\t' && m.tab)
    requires (m.cr ==> '\r' !in s) && (m.lf ==> '\n' !in s)
    ensures Clean(s + [c] + t, m) == Clean(s, m) + Clean(t, m)
  {
    hide Clean;
    var whole := s + [c] + t;
    CleanStep(whole, m);
    if s == "" {
      CleanIsShorter(s, m);
      assert whole[1..] == t;
    } else {
      CleanStep(s, m);
      assert s[0] in s && whole[1..] == s[1..] + [c] + t;
      CleanDrops(s[1..], c, t, m);
    }
  }

  /** The name a form sends with a line end behind it. */
  lemma BobWithoutLineEnd()
    ensures Clean("bob\r\n", Escapes(true, true, true, true)) == "bob"
  {
    var m := Escapes(true, true, true, true);
    assert "bob\r\n" == "bob" + ['\r'] + "\n";
    CleanCuts("bob", '\r', "\n", m);
    CleanNothing("bob", m);
  }

  /** The inner loop: what is behind position p moves one forward, up to the end. */
  method Shift(a: array<char>, p: nat, ghost end: nat)
    requires p < end < a.Length && a[end] == NUL && forall k :: p <= k < end ==> a[k] != NUL
    modifies a
    ensures forall k :: p <= k < end ==> a[k] == old(a[k + 1])
    ensures forall k :: 0 <= k < a.Length && !(p <= k < end) ==> a[k] == old(a[k])
  {
    var q := p;
    while a[q] != NUL
      invariant p <= q <= end
      invariant forall k :: p <= k < q ==> a[k] == old(a[k + 1])
      invariant forall k :: 0 <= k < a.Length && !(p <= k < q) ==> a[k] == old(a[k])
      decreases end - q
    {
      a[q] := a[q + 1];
      q := q + 1;
    }
  }

  /** What is still to be looked at: a[i..end] is the end of s. */
  ghost predicate Tail(a: string, i: nat, end: nat, s: string) {
    && i <= end <= |s| && end < |a| && a[end] == NUL
    && forall j :: i <= j < end ==> a[j] == s[j + (|s| - end)] && a[j] != NUL
  }

  /** What is done: with `rest` behind it the result, unless it was cut. */
  ghost predicate Front(a: string, i: nat, cut: bool, result: string, rest: string) {
    && i <= |a|
    && if cut then |result| < i && a[..|result|] == result && a[|result|] == NUL else a[..i] + rest == result
  }

  lemma FrontDrop(a: string, b: string, i: nat, cut: bool, result: string, rest: string)
    requires Front(a, i, cut, result, rest) && |b| == |a| && forall j :: 0 <= j < i ==> b[j] == a[j]
    ensures Front(b, i, cut, result, rest)
  {
    assert a[..i] == b[..i];
    if cut { assert a[..|result|] == b[..|result|]; }
  }

  lemma FrontCut(a: string, i: nat, cut: bool, result: string)
    requires Front(a, i, cut, result, "") && i < |a|
    ensures Front(a[i := NUL], i + 1, true, result, "")
  {
    if cut {
      assert a[i := NUL][..|result|] == a[..|result|];
    } else {
      assert a[..i] + "" == a[..i] == a[i := NUL][..i];
    }
  }

  lemma FrontTake(a: string, i: nat, cut: bool, result: string, rest: string)
    requires i < |a| && Front(a, i, cut, result, [a[i]] + rest)
    ensures Front(a, i + 1, cut, result, rest)
  {
    OneMore(a[..i], a[i], rest);
    assert a[..i + 1] == a[..i] + [a[i]];
  }

  lemma CleanFrom(s: string, k: nat, m: Escapes)
    requires k < |s|
    ensures Clean(s[k..], m) == if m.Cuts(s[k]) then "" else if m.Drops(s[k]) then Clean(s[k + 1..], m) else [s[k]] + Clean(s[k + 1..], m)
  {
    hide Clean;
    assert s[k..][1..] == s[k + 1..] && s[k..][0] == s[k];
    CleanStep(s[k..], m);
  }

  /** The NUL behind a result that was cut short hides what follows. */
  lemma CutHides(a: string, i: nat, result: string, rest: string, rest': string)
    requires Front(a, i, true, result, rest)
    ensures Front(a, i, true, result, rest')
  {
  }

  /**
   CheckEscape on the string at the front of a.  After a cut the loop goes on behind the NUL it
   wrote, up to the old end, without effect on the result.
   */
  method CheckEscape(a: array<char>, m: Escapes, ghost s: string)
    requires IsString(a[..], 0, s)
    modifies a
    ensures IsString(a[..], 0, Clean(s, m))
  {
    hide Clean, Front, Tail;
    CleanIsShorter(s, m);
    var i: nat := 0;
    ghost var end: nat, r, cut := |s|, Clean(s, m), false;
    StartEscape(a[..], s, r);
    while a[i] != NUL
      invariant i <= end <= |s| && end < a.Length && Tail(a[..], i, end, s)
      invariant Front(a[..], i, cut, r, Clean(s[i + (|s| - end)..], m))
      decreases end - i
    {
      ghost var was := a[..];
      TailHead(was, i, end, s);
      ghost var k := i + (|s| - end);
      ghost var rest := Clean(s[k + 1..], m);
      CleanFrom(s, k, m);
      if m.Drops(a[i]) {
        if cut { CutHides(was, i, r, Clean(s[k..], m), rest); }
        Shift(a, i, end);
        TailShift(was, a[..], i, end, s);
        FrontDrop(was, a[..], i, cut, r, rest);
        end := end - 1;
      } else {
        if m.Cuts(a[i]) {
          FrontCut(was, i, cut, r);
          a[i] := NUL;
          cut := true;
          CutHides(was[i := NUL], i + 1, r, "", rest);
          assert a[..] == was[i := NUL];
        } else {
          FrontTake(was, i, cut, r, rest);
        }
        TailNext(was, a[..], i, end, s);
        i := i + 1;
      }
    }
    FinishEscape(a[..], i, end, cut, s, r, m);
  }

  lemma TailHead(a: string, i: nat, end: nat, s: string)
    requires Tail(a, i, end, s) && i < |a| && a[i] != NUL
    ensures i < end <= |s| && end < |a| && a[end] == NUL && a[i] == s[i + (|s| - end)]
    ensures forall j :: i <= j < end ==> a[j] != NUL
  {
  }

  lemma TailShift(a: string, b: string, i: nat, end: nat, s: string)
    requires Tail(a, i, end, s) && i < end && |b| == |a|
    requires forall j :: i <= j < end ==> b[j] == a[j + 1]
    ensures Tail(b, i, end - 1, s)
  {
  }

  lemma TailNext(a: string, b: string, i: nat, end: nat, s: string)
    requires Tail(a, i, end, s) && i < end && |b| == |a| && forall j :: i < j < |a| ==> b[j] == a[j]
    ensures Tail(b, i + 1, end, s)
  {
  }

  lemma StartEscape(a: string, s: string, r: string)
    requires IsString(a, 0, s)
    ensures Tail(a, 0, |s|, s) && s[0..] == s && Front(a, 0, false, r, r)
  {
    assert forall j :: 0 <= j < |s| ==> a[j] == a[0..0 + |s|][j] == s[j] && s[j] in s;
  }

  lemma FinishEscape(a: string, i: nat, end: nat, cut: bool, s: string, r: string, m: Escapes)
    requires i < |a| && a[i] == NUL && NUL !in r
    requires Tail(a, i, end, s) && Front(a, i, cut, r, Clean(s[i + (|s| - end)..], m))
    ensures IsString(a, 0, r)
  {
    assert a[0..0 + |r|] == a[..|r|];
    if !cut {
      assert s[|s|..] == "" && a[..i] + "" == a[..i];
    }
  }

  // ------------------------------------------------------------------
  // Parse and Get
  // ------------------------------------------------------------------

  function Truncated(s: string): string { if |s| < MAX_PARSE then s else s[..MAX_PARSE - 1] }

  datatype Pair = Pair(key: string, value: string)

  /**
   The pairs the loop sees.  It stops where there is no '=', where a key is empty, and at a last
   value that is empty.
   */
  function Pairs(q: string, m: Escapes): seq<Pair>
    decreases |q|
  {
    var k := IndexOf(q, '=');
    if k == |q| || k == 0 || k + 1 == |q| then [] else
    var rest := q[k + 1..];
    var e := IndexOf(rest, '&');
    [Pair(Clean(Truncated(q[..k]), m), Clean(Truncated(rest[..e]), m))]
    + if e < |rest| then Pairs(rest[e + 1..], m) else []
  }

  /** Pairs put into a map one after the other. */
  function Insert(base: map<string, string>, ps: seq<Pair>): map<string, string>
    decreases |ps|
  {
    if ps == [] then base else Insert(base[ps[0].key := ps[0].value], ps[1..])
  }

  /** A field of 128 characters or more is cut to its first 127. */
  lemma TruncatedIs(s: string, t: string)
    requires |s| <= 127
    ensures Truncated(s) == s && (|s| == 127 && t != "" ==> Truncated(s + t) == s)
  {
  }

  /** The value last given for a key, or "". */
  function Last(ps: seq<Pair>, key: string): string {
    if ps == [] then ""
    else if ps[|ps| - 1].key == key then ps[|ps| - 1].value
    else Last(ps[..|ps| - 1], key)
  }

  lemma {:induction false} LastIs(before: seq<Pair>, p: Pair, behind: seq<Pair>)
    requires forall x <- behind :: x.key != p.key
    ensures Last(before + [p] + behind, p.key) == p.value
    decreases |behind|
  {
    var ps := before + [p] + behind;
    if behind != [] {
      var n := |behind| - 1;
      assert ps[..|ps| - 1] == before + [p] + behind[..n] && behind[n] in behind;
      LastIs(before, p, behind[..n]);
    }
  }

  predicate Mentions(ps: seq<Pair>, key: string) {
    exists i :: 0 <= i < |ps| && ps[i].key == key
  }

  lemma {:induction false} InsertLast(base: map<string, string>, ps: seq<Pair>, p: Pair)
    ensures Insert(base, ps + [p]) == Insert(base, ps)[p.key := p.value]
    decreases |ps|
  {
    if ps == [] {
      assert (ps + [p])[1..] == [];
    } else {
      assert (ps + [p])[1..] == ps[1..] + [p];
      InsertLast(base[ps[0].key := ps[0].value], ps[1..], p);
    }
  }

  /** The map answers with the last value of each key. */
  lemma {:induction false} InsertedIsLast(ps: seq<Pair>, key: string)
    ensures key in Insert(map[], ps) <==> Mentions(ps, key)
    ensures key in Insert(map[], ps) ==> Insert(map[], ps)[key] == Last(ps, key)
    ensures key !in Insert(map[], ps) ==> Last(ps, key) == ""
    decreases |ps|
  {
    if ps != [] {
      var n := |ps| - 1;
      assert ps == ps[..n] + [ps[n]];
      InsertLast(map[], ps[..n], ps[n]);
      InsertedIsLast(ps[..n], key);
      if Mentions(ps[..n], key) {
        var i :| 0 <= i < n && ps[..n][i].key == key;
        assert ps[i].key == key;
      }
      if Mentions(ps, key) && ps[n].key != key {
        var i :| 0 <= i < |ps| && ps[i].key == key;
        assert ps[..n][i].key == key;
      }
    }
  }

  /** What may be sent and read back: short, with the separators where they belong. */
  predicate Sendable(p: Pair) {
    && 0 < |p.key| < MAX_PARSE && |p.value| < MAX_PARSE
    && '=' !in p.key && '&' !in p.value
  }

  /** Nothing that is cut at or dropped is in key and value. */
  predicate Plain(p: Pair, m: Escapes) { Free(p.key, m) && Free(p.value, m) }

  /** key=value pairs joined by '&'. */
  function Joined(ps: seq<Pair>): string {
    if ps == [] then ""
    else if |ps| == 1 then ps[0].key + ['='] + ps[0].value
    else ps[0].key + ['='] + (ps[0].value + ['&'] + Joined(ps[1..]))
  }

  lemma PairsOfNothing(m: Escapes)
    ensures Pairs("", m) == []
  {
    assert IndexOf("", '=') == 0;
  }

  lemma PairsStep(q: string, m: Escapes, k: nat, value: string, e: nat)
    requires k == IndexOf(q, '=') && 0 < k < |q| && value == q[k + 1..] && value != "" && e == IndexOf(value, '&')
    ensures Pairs(q, m) == [Pair(Clean(Truncated(q[..k]), m), Clean(Truncated(value[..e]), m))] + Pairs(if e < |value| then value[e + 1..] else "", m)
  {
    hide Clean, Truncated;
    PairsOfNothing(m);
  }

  lemma PairsStop(q: string, m: Escapes)
    requires var k := IndexOf(q, '='); k == |q| || k == 0 || k + 1 == |q|
    ensures Pairs(q, m) == []
  {
  }

  lemma InsertOne(base: map<string, string>, p: Pair, ps: seq<Pair>)
    ensures Insert(base, [p] + ps) == Insert(base[p.key := p.value], ps) && Insert(base, []) == base
  {
    assert ([p] + ps)[1..] == ps;
  }

  lemma ShortField(s: string, m: Escapes)
    requires |s| < MAX_PARSE
    ensures Clean(Truncated(s), m) == Clean(s, m)
  {
  }

  /** Keys and values without what is cut at or dropped. */
  function Cleaned(ps: seq<Pair>, m: Escapes): (r: seq<Pair>)
    ensures |r| == |ps|
  {
    if ps == [] then [] else [Pair(Clean(ps[0].key, m), Clean(ps[0].value, m))] + Cleaned(ps[1..], m)
  }

  lemma {:induction false} CleanedIsSame(ps: seq<Pair>, m: Escapes)
    requires forall p <- ps :: Plain(p, m)
    ensures Cleaned(ps, m) == ps
  {
    if ps != [] {
      assert ps[0] in ps;
      CleanNothing(ps[0].key, m);
      CleanNothing(ps[0].value, m);
      CleanedIsSame(ps[1..], m);
    }
  }

  lemma LastPair(p: Pair, m: Escapes)
    requires Sendable(p) && p.value != ""
    ensures Pairs(p.key + ['='] + p.value, m) == [Pair(Clean(p.key, m), Clean(p.value, m))]
  {
    hide Clean, Truncated;
    var q := p.key + ['='] + p.value;
    IndexOfFirst(p.key, '=', p.value);
    assert q[..|p.key|] == p.key && q[|p.key| + 1..] == p.value;
    IndexOfNone(p.value, '&');
    assert p.value[..|p.value|] == p.value;
    ShortField(p.key, m);
    ShortField(p.value, m);
  }

  /** A pair in front of others is the first, and the others are parsed on their own. */
  lemma PairBeforeOthers(p: Pair, others: string, m: Escapes)
    requires Sendable(p)
    ensures Pairs(p.key + ['='] + (p.value + ['&'] + others), m) == [Pair(Clean(p.key, m), Clean(p.value, m))] + Pairs(others, m)
  {
    hide Clean, Truncated, Pairs, IndexOf;
    var rest := p.value + ['&'] + others;
    var q := p.key + ['='] + rest;
    IndexOfFirst(p.key, '=', rest);
    assert q[..|p.key|] == p.key && q[|p.key| + 1..] == rest;
    IndexOfFirst(p.value, '&', others);
    assert rest[..|p.value|] == p.value && rest[|p.value| + 1..] == others;
    PairsStep(q, m, |p.key|, rest, |p.value|);
    ShortField(p.key, m);
    ShortField(p.value, m);
  }

  /** Parsing stops at an empty key, at an empty value at the very end, and where there is no '='. */
  lemma {:induction false} ParsingStops(key: string, more: string, m: Escapes)
    requires '=' !in key
    ensures Pairs(['='] + more, m) == Pairs(key + ['='], m) == Pairs(key, m) == []
  {
    IndexOfFirst("", '=', more);
    assert "" + ['='] + more == ['='] + more;
    IndexOfFirst(key, '=', "");
    assert key + ['='] + "" == key + ['='];
    IndexOfNone(key, '=');
  }

  /** Joined keys and values come back in order, without what is selected, and untouched if nothing is. */
  lemma {:induction false} PairsOfJoined(ps: seq<Pair>, m: Escapes)
    requires (forall p <- ps :: Sendable(p)) && (|ps| > 0 ==> ps[|ps| - 1].value != "")
    ensures Pairs(Joined(ps), m) == Cleaned(ps, m)
    ensures (forall p <- ps :: Plain(p, m)) ==> Pairs(Joined(ps), m) == ps
    decreases |ps|
  {
    hide Pairs, IndexOf, Clean, Truncated, Plain;
    if forall p <- ps :: Plain(p, m) { CleanedIsSame(ps, m); }
    if ps == [] {
      PairsOfNothing(m);
    } else {
      assert ps[0] in ps;
      if |ps| == 1 {
        LastPair(ps[0], m);
      } else {
        PairBeforeOthers(ps[0], Joined(ps[1..]), m);
        PairsOfJoined(ps[1..], m);
      }
    }
  }

  /** CQueryString */
  class Query {
    var m_mapQuery: map<string, string>

    constructor ()
      ensures m_mapQuery == map[]
    {
      m_mapQuery := map[];
    }

    /** memcpy into szName or szValue, and CheckEscape if anything is selected. */
    method Field(text: string, m: Escapes) returns (f: string)
      requires NUL !in text
      ensures f == Clean(Truncated(text), m)
    {
      hide Clean;
      var nLen := |text|;
      if nLen >= MAX_PARSE {
        nLen := MAX_PARSE - 1;
      }
      var sz := new char[MAX_PARSE](_ => NUL);
      forall i | 0 <= i < nLen { sz[i] := text[i]; }
      sz[nLen] := NUL;
      ghost var s := Truncated(text);
      assert sz[0..0 + |s|] == s;
      assert forall i :: 0 <= i < |s| ==> s[i] in text;
      if !m.None() {
        CheckEscape(sz, m, s);
      } else {
        CleanNothing(s, m);
      }
      CleanIsShorter(s, m);
      f := Take(sz, 0, Clean(s, m));
    }

    /** All pairs of the query string are put into the map; the result is its size. */
    method Parse(szQuery: string, m: Escapes) returns (size: nat)
      requires NUL !in szQuery
      modifies this
      ensures m_mapQuery == Insert(old(m_mapQuery), Pairs(szQuery, m)) && (szQuery != "" ==> size == |m_mapQuery|)
    {
      hide Clean, Truncated, Pairs, IndexOf, Insert;
      var pNow := szQuery;
      ghost var all := Insert(m_mapQuery, Pairs(szQuery, m));
      InsertOne(m_mapQuery, Pair("", ""), []);
      PairsOfNothing(m);
      if szQuery == "" {
        return 0;
      }
      while pNow != ""
        invariant NUL !in pNow
        invariant Insert(m_mapQuery, Pairs(pNow, m)) == all
        decreases |pNow|
      {
        var pSep := IndexOf(pNow, '=');
        if pSep == |pNow| || pSep == 0 {
          PairsStop(pNow, m);
          break;
        }
        var name := pNow[..pSep];
        var value := pNow[pSep + 1..];
        if value == "" {
          PairsStop(pNow, m);
          break;
        }
        var end := IndexOf(value, '&');
        PairsStep(pNow, m, pSep, value, end);
        var key := Field(name, m);
        var text := Field(value[..end], m);
        pNow := if end < |value| then value[end + 1..] else "";
        InsertOne(m_mapQuery, Pair(key, text), Pairs(pNow, m));
        m_mapQuery := m_mapQuery[key := text];
      }
      InsertOne(m_mapQuery, Pair("", ""), []);
      size := |m_mapQuery|;
    }

    method Get(szName: string) returns (value: string)
      ensures value == if szName in m_mapQuery then m_mapQuery[szName] else ""
    {
      if szName in m_mapQuery {
        value := m_mapQuery[szName];
      } else {
        value := "";
      }
    }
  }

  /** Joined pairs, parsed and asked for a key: the value last given for it, cleaned as key and value were. */
  method ParseThenGet(ps: seq<Pair>, m: Escapes, key: string) returns (value: string)
    requires (forall p <- ps :: Sendable(p)) && (|ps| > 0 ==> ps[|ps| - 1].value != "")
    requires NUL !in Joined(ps)
    ensures value == Last(Cleaned(ps, m), key)
    ensures (forall p <- ps :: Plain(p, m)) ==> value == Last(ps, key)
  {
    var q := new Query();
    var _ := q.Parse(Joined(ps), m);
    PairsOfJoined(ps, m);
    if forall p <- ps :: Plain(p, m) { CleanedIsSame(ps, m); }
    InsertedIsLast(Cleaned(ps, m), key);
    value := q.Get(key);
  }
}
