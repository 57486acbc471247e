/** parse_amievent and get_amivalue of amiproc/amiproc.cpp: "Key: Value" lines, split in place. */
module AmiEvents {
  import opened CStrings
  import opened Wrappers

  /** A line of a message; the value is None while the line has no end. */
  datatype Line = Line(key: string, value: Option<string>)

  const MAX_LINES: nat := 100

  function TrimLeft(s: string): string {
    if s != "" && s[0] == ' ' then TrimLeft(s[1..]) else s
  }

  predicate LineEnd(s: string, p: nat) {
    p + 1 < |s| && s[p] == '\r' && s[p + 1] == '\n'
  }

  /**
   The lines from p on, p being in a key that starts at `start`.  Behind the end of a line the
   first character of the next key is not looked at.
   */
  function InKey(s: string, start: nat, p: nat): seq<Line>
    requires start <= p
    decreases |s| - p
  {
    if p >= |s| then []
    else if s[p] == ':' then InValue(s, s[start..p], p + 1, p + 1)
    else InKey(s, start, p + 1)
  }

  /** The lines from p on, p being in the value of `key`, whose text starts at `from`. */
  function InValue(s: string, key: string, from: nat, p: nat): seq<Line>
    requires from <= p
    decreases |s| - p
  {
    if p >= |s| then [Line(key, None)]
    else if LineEnd(s, p) then [Line(key, Some(TrimLeft(s[from..p])))] + InKey(s, p + 2, p + 3)
    else InValue(s, key, from, p + 1)
  }

  function Lines(s: string): seq<Line> { InKey(s, 0, 0) }

  /** A line without an end is not counted. */
  function Complete(ls: seq<Line>): seq<Line> {
    if ls != [] && ls[|ls| - 1].value.None? then ls[..|ls| - 1] else ls
  }

  /** From p on, p being in a key, the scan comes to the end of the text and does not step over it. */
  predicate KeyStays(s: string, p: nat)
    decreases |s| - p
  {
    if p >= |s| then p == |s| else if s[p] == ':' then ValueStays(s, p + 1) else KeyStays(s, p + 1)
  }

  /** The same from a value.  Behind the end of a line one character is stepped over. */
  predicate ValueStays(s: string, p: nat)
    decreases |s| - p
  {
    if p >= |s| then p == |s| else if LineEnd(s, p) then KeyStays(s, p + 3) else ValueStays(s, p + 1)
  }

  /** The scan stays in a text that does not end with the end of a line ... */
  lemma {:induction false} OpenEndStays(s: string, p: nat)
    requires p <= |s| && !(|s| >= 2 && LineEnd(s, |s| - 2))
    ensures KeyStays(s, p) && ValueStays(s, p)
    decreases |s| - p
  {
    if p < |s| {
      OpenEndStays(s, p + 1);
      if LineEnd(s, p) { OpenEndStays(s, p + 3); }
    }
  }

  /** ... and in one that ends with a blank line. */
  lemma {:induction false} BlankEndStays(s: string, p: nat)
    requires |s| >= 4 && LineEnd(s, |s| - 4) && LineEnd(s, |s| - 2) && p <= |s|
    ensures KeyStays(s, p) && (p <= |s| - 4 ==> ValueStays(s, p))
    decreases |s| - p
  {
    if p < |s| {
      BlankEndStays(s, p + 1);
      if p < |s| - 4 && LineEnd(s, p) { BlankEndStays(s, p + 3); }
    }
  }

  /** Where the line begins that ends, or goes on, at e. */
  function LineStart(s: string, e: nat): (b: nat)
    requires e <= |s|
    ensures b <= e
  {
    if e == 0 || (e >= 2 && LineEnd(s, e - 2)) then e else LineStart(s, e - 1)
  }

  /**
   The line up to e counts as one with a key: it has a ':' behind its first character, or it begins
   with one and the line before it does not count.
   */
  predicate HasKey(s: string, e: nat)
    requires e <= |s|
    decreases e
  {
    var b := LineStart(s, e);
    || (exists c :: b < c < e && s[c] == ':')
    || (b < e && s[b] == ':' && (b < 2 || !HasKey(s, b - 2)))
  }

  /** The text ends with the end of a line that has a key. */
  predicate EndsInKeyLine(s: string) {
    |s| >= 2 && LineEnd(s, |s| - 2) && HasKey(s, |s| - 2)
  }

  lemma {:induction false} KeyScanExactly(s: string, p: nat)
    requires p <= |s| && !HasKey(s, p) && (p >= 2 && LineEnd(s, p - 2) ==> !HasKey(s, p - 2))
    ensures KeyStays(s, p) <==> !EndsInKeyLine(s)
    decreases |s| - p
  {
    hide HasKey;
    if p < |s| {
      KeyStep(s, p);
      if s[p] == ':' {
        ValueScanExactly(s, p + 1);
      } else {
        KeyScanExactly(s, p + 1);
      }
    }
  }

  lemma {:induction false} ValueScanExactly(s: string, p: nat)
    requires 0 < p <= |s| && HasKey(s, p) && !LineEnd(s, p - 1)
    ensures ValueStays(s, p) <==> !EndsInKeyLine(s)
    decreases |s| - p
  {
    hide HasKey;
    ValueStep(s, p);
    if p < |s| {
      if !LineEnd(s, p) {
        ValueScanExactly(s, p + 1);
      } else if p + 3 <= |s| {
        KeyScanExactly(s, p + 3);
      }
    }
  }

  lemma KeyStep(s: string, p: nat)
    requires p < |s| && !HasKey(s, p) && (p >= 2 && LineEnd(s, p - 2) ==> !HasKey(s, p - 2))
    ensures s[p] == ':' ==> HasKey(s, p + 1)
    ensures s[p] != ':' ==> !HasKey(s, p + 1) && (p >= 1 && LineEnd(s, p - 1) ==> !HasKey(s, p - 1))
  {
    if p >= 1 && LineEnd(s, p - 1) {
      assert LineStart(s, p) == LineStart(s, p - 1);
    }
  }

  lemma ValueStep(s: string, p: nat)
    requires 0 < p <= |s| && HasKey(s, p) && !LineEnd(s, p - 1)
    ensures p < |s| && !LineEnd(s, p) ==> HasKey(s, p + 1)
    ensures LineEnd(s, p) && p + 3 <= |s| ==> !HasKey(s, p + 3) && !LineEnd(s, p + 1)
    ensures p == |s| ==> !(p >= 2 && LineEnd(s, p - 2))
  {
    if LineEnd(s, p) && p + 3 <= |s| {
      assert LineStart(s, p + 3) == LineStart(s, p + 2) == p + 2;
    }
  }

  /**
   For every text: parse_amievent steps over the end if and only if the text ends with the end of
   a line, and that line has a key.
   */
  lemma StepsOverExactly(s: string)
    ensures !KeyStays(s, 0) <==> EndsInKeyLine(s)
  {
    KeyScanExactly(s, 0);
  }

  /** Where no line begins with a ':', a line has a key if and only if it has a ':'. */
  lemma StepsOverByColon(s: string)
    requires forall k: nat :: LineEnd(s, k) && k + 2 < |s| ==> s[k + 2] != ':'
    ensures !KeyStays(s, 0) <==>
              && |s| >= 2 && LineEnd(s, |s| - 2)
              && exists c: nat :: c + 2 < |s| && s[c] == ':' && forall k: nat :: c < k < |s| - 2 ==> !LineEnd(s, k)
  {
    StepsOverExactly(s);
    if |s| >= 2 && LineEnd(s, |s| - 2) {
      var e: nat := |s| - 2;
      var b := LineStart(s, e);
      LineStartIs(s, e);
      if HasKey(s, e) {
        var c: nat :| b <= c < e && s[c] == ':';
        assert forall k: nat :: c < k < e ==> !LineEnd(s, k);
      }
    }
  }

  lemma {:induction false} LineStartIs(s: string, e: nat)
    requires e <= |s|
    ensures var b := LineStart(s, e);
      (b > 0 ==> b >= 2 && LineEnd(s, b - 2)) && forall k: nat :: b < k + 2 <= e ==> !LineEnd(s, k)
  {
    if !(e == 0 || (e >= 2 && LineEnd(s, e - 2))) { LineStartIs(s, e - 1); }
  }

  /** "Key: Value" and one line end make it step over the end. */
  lemma {:induction false} OneLineEndOverruns(s: string, colon: nat)
    requires colon + 2 < |s| && s[colon] == ':' && LineEnd(s, |s| - 2)
    requires forall k: nat :: k < colon ==> s[k] != ':'
    requires forall k: nat :: colon < k < |s| - 2 ==> !LineEnd(s, k)
    ensures !KeyStays(s, 0)
  {
    ValueOverruns(s, colon + 1);
    KeyReaches(s, 0, colon);
  }

  lemma {:induction false} ValueOverruns(s: string, p: nat)
    requires p + 2 <= |s| && LineEnd(s, |s| - 2) && forall k: nat :: p <= k < |s| - 2 ==> !LineEnd(s, k)
    ensures !ValueStays(s, p)
    decreases |s| - p
  {
    if p < |s| - 2 { ValueOverruns(s, p + 1); }
  }

  lemma {:induction false} KeyReaches(s: string, p: nat, colon: nat)
    requires p <= colon < |s| && s[colon] == ':' && forall k: nat :: p <= k < colon ==> s[k] != ':'
    ensures KeyStays(s, p) == ValueStays(s, colon + 1)
    decreases colon - p
  {
    if p < colon { KeyReaches(s, p + 1, colon); }
  }

  // ------------------------------------------------------------------
  // Rendering
  // ------------------------------------------------------------------

  datatype Entry = Entry(key: string, value: string)

  predicate Sendable(e: Entry) {
    && e.key != "" && ':' !in e.key && NUL !in e.key
    && NUL !in e.value && (e.value != "" ==> e.value[0] != ' ')
    && forall p: nat :: p < |e.value| ==> !LineEnd(e.value, p)
  }

  const EOL: string := ['\r', '\n']

  /** "Key: Value" lines, ended by a blank line. */
  function Render(es: seq<Entry>): string {
    if es == [] then EOL else es[0].key + (": " + (es[0].value + (EOL + Render(es[1..]))))
  }

  function LineOf(e: Entry): Line { Line(e.key, Some(e.value)) }

  function LinesOf(es: seq<Entry>): seq<Line> {
    seq(|es|, i requires 0 <= i < |es| => LineOf(es[i]))
  }

  lemma {:induction false} KeyScan(s: string, start: nat, p: nat, colon: nat)
    requires start <= p <= colon < |s| && s[colon] == ':' && forall k :: p <= k < colon ==> s[k] != ':'
    ensures InKey(s, start, p) == InValue(s, s[start..colon], colon + 1, colon + 1)
    decreases colon - p
  {
    if p < colon { KeyScan(s, start, p + 1, colon); }
  }

  lemma {:induction false} NoKeyScan(s: string, start: nat, p: nat)
    requires start <= p && forall k :: p <= k < |s| ==> s[k] != ':'
    ensures InKey(s, start, p) == []
    decreases |s| - p
  {
    if p < |s| { NoKeyScan(s, start, p + 1); }
  }

  lemma {:induction false} ValueScan(s: string, key: string, from: nat, p: nat, end: nat)
    requires from <= p <= end && LineEnd(s, end) && forall k: nat :: p <= k < end ==> !LineEnd(s, k)
    ensures InValue(s, key, from, p) == [Line(key, Some(TrimLeft(s[from..end])))] + InKey(s, end + 2, end + 3)
    decreases end - p
  {
    if p < end { ValueScan(s, key, from, p + 1, end); }
  }

  /** Where the parts of a rendered line are. */
  lemma LineLayout(pre: string, e: Entry, more: string, s: string)
    requires Sendable(e) && s == pre + (e.key + (": " + (e.value + (EOL + more))))
    ensures var colon := |pre| + |e.key|; var end := colon + 2 + |e.value|;
      && end + 2 + |more| == |s| && s[|pre|..colon] == e.key && s[colon] == ':' && s[colon + 1] == ' '
      && s[colon + 2..end] == e.value && s[end..end + 2] == EOL && s[end + 2..] == more
  {
    var colon := |pre| + |e.key|;
    assert s == pre + e.key + (": " + (e.value + (EOL + more)));
    assert s == pre + e.key + ": " + (e.value + (EOL + more));
    assert s == pre + e.key + ": " + e.value + (EOL + more);
    assert s == pre + e.key + ": " + e.value + EOL + more;
  }

  lemma NotIn(s: string, lo: nat, hi: nat, t: string, c: char)
    requires lo <= hi <= |s| && s[lo..hi] == t && c !in t
    ensures forall k :: lo <= k < hi ==> s[k] != c
  {
    forall k | lo <= k < hi ensures s[k] != c { assert s[k] == t[k - lo]; }
  }

  lemma NoLineEndIn(s: string, lo: nat, hi: nat, v: string)
    requires lo <= hi < |s| && s[lo..hi] == v && s[hi] == '\r' && forall p: nat :: p < |v| ==> !LineEnd(v, p)
    ensures forall k: nat :: lo <= k < hi ==> !LineEnd(s, k)
  {
    forall k: nat | lo <= k < hi ensures !LineEnd(s, k) {
      assert s[k] == v[k - lo] && (k + 1 < hi ==> s[k + 1] == v[k + 1 - lo]);
      assert !LineEnd(v, k - lo);
    }
  }

  lemma ScanLine(s: string, start: nat, p: nat, e: Entry, more: string)
    requires Sendable(e) && start <= |s| && s[start..] == e.key + (": " + (e.value + (EOL + more))) && start <= p <= start + 1
    ensures var next := start + |e.key| + |e.value| + 4;
      next <= |s| && s[next..] == more && InKey(s, start, p) == [LineOf(e)] + InKey(s, next, next + 1)
  {
    hide InKey, InValue, TrimLeft, LineEnd;
    var colon := start + |e.key|;
    var end := colon + 2 + |e.value|;
    assert s == s[..start] + s[start..];
    LineLayout(s[..start], e, more, s);
    assert s[end] == s[end..end + 2][0] && s[end + 1] == s[end..end + 2][1];
    ScanParts(s, start, p, colon, end, e);
  }

  lemma ScanParts(s: string, start: nat, p: nat, colon: nat, end: nat, e: Entry)
    requires Sendable(e) && start <= p <= start + 1 && colon == start + |e.key| && end == colon + 2 + |e.value| && end + 1 < |s|
    requires s[start..colon] == e.key && s[colon] == ':' && s[colon + 1] == ' ' && s[colon + 2..end] == e.value
    requires s[end] == '\r' && s[end + 1] == '\n'
    ensures InKey(s, start, p) == [LineOf(e)] + InKey(s, end + 2, end + 3)
  {
    hide InKey, InValue, TrimLeft, LineEnd;
    NotIn(s, start, colon, e.key, ':');
    KeyScan(s, start, p, colon);
    NoLineEndIn(s, colon + 2, end, e.value);
    ScanValue(s, e.key, colon + 1, end, e.value);
  }

  lemma ScanValue(s: string, key: string, from: nat, end: nat, v: string)
    requires from < end && end + 1 < |s| && s[end] == '\r' && s[end + 1] == '\n' && s[from] == ' ' && s[from + 1..end] == v
    requires (v != "" ==> v[0] != ' ') && forall k: nat :: from + 1 <= k < end ==> !LineEnd(s, k)
    ensures InValue(s, key, from, from) == [Line(key, Some(v))] + InKey(s, end + 2, end + 3)
  {
    hide InKey, InValue;
    ValueScan(s, key, from, from, end);
    TrimOne(s, from, end, v);
  }

  lemma TrimOne(s: string, from: nat, end: nat, v: string)
    requires from < end <= |s| && s[from] == ' ' && s[from + 1..end] == v && (v != "" ==> v[0] != ' ')
    ensures TrimLeft(s[from..end]) == v
  {
    assert s[from..end][1..] == v;
    assert TrimLeft(v) == v;
  }

  /**
   One line of any text: the key is everything up to the first ':', not counting its first character
   where a line end is in front of it, and the value what follows the spaces, up to the line end.
   */
  lemma {:induction false} LineIsRead(s: string, start: nat, p: nat, colon: nat, value: nat, end: nat)
    requires start <= p <= colon < value <= end && end + 1 < |s| && s[end] == '\r' && s[end + 1] == '\n'
    requires s[colon] == ':' && forall k :: p <= k < colon ==> s[k] != ':'
    requires (forall k :: colon < k < value ==> s[k] == ' ') && (value == end || s[value] != ' ')
    requires forall k: nat :: colon < k < end ==> !LineEnd(s, k)
    ensures InKey(s, start, p) == [Line(s[start..colon], Some(s[value..end]))] + InKey(s, end + 2, end + 3)
  {
    hide InKey, InValue, TrimLeft;
    KeyScan(s, start, p, colon);
    ValueScan(s, s[start..colon], colon + 1, colon + 1, end);
    TrimSpaces(s, colon + 1, value, end);
  }

  /** Spaces in front of a value do not count, and behind a line end a ':' is a character of the key. */
  lemma {:induction false} SpacesAndColons()
    ensures Lines("A:  b c\r\n:d: e\r\n\r\n") == [Line("A", Some("b c")), Line(":d", Some("e"))]
  {
    hide InKey;
    var s := "A:  b c\r\n:d: e\r\n\r\n";
    LineIsRead(s, 0, 0, 1, 4, 7);
    assert s[0..1] == "A" && s[4..7] == "b c";
    LineIsRead(s, 9, 10, 11, 13, 14);
    assert s[9..11] == ":d" && s[13..14] == "e";
    NoKeyScan(s, 16, 17);
  }

  /** Parsing inverts rendering. */
  lemma {:induction false} LinesOfRender(s: string, start: nat, p: nat, es: seq<Entry>)
    requires (forall e <- es :: Sendable(e)) && start <= |s| && s[start..] == Render(es) && start <= p <= start + 1
    ensures InKey(s, start, p) == LinesOf(es)
    decreases |es|
  {
    hide InKey, Sendable;
    if es == [] {
      forall k | p <= k < |s| ensures s[k] != ':' { assert s[k] == s[start..][k - start]; }
      NoKeyScan(s, start, p);
    } else {
      assert es[0] in es;
      ScanLine(s, start, p, es[0], Render(es[1..]));
      var next := start + |es[0].key| + |es[0].value| + 4;
      LinesOfRender(s, next, next + 1, es[1..]);
      assert LinesOf(es) == [LineOf(es[0])] + LinesOf(es[1..]);
    }
  }

  /** The value of the first line with the key, or "". */
  function First(ls: seq<Line>, key: string): string {
    if ls == [] || ls[0].value.None? then ""
    else if ls[0].key == key then ls[0].value.value
    else First(ls[1..], key)
  }

  // ------------------------------------------------------------------
  // The code
  // ------------------------------------------------------------------

  /** The text of a framed message ends with a blank line. */
  predicate EndsBlank(s: string) {
    |s| >= 4 && LineEnd(s, |s| - 4) && LineEnd(s, |s| - 2) && NUL !in s
  }

  ghost predicate HoldsLine(a: string, hi: nat, k: nat, v: nat, l: Line) {
    l.value.Some? && Holds(a, hi, k, l.key) && Holds(a, hi, v, l.value.value)
  }

  /** The pointers of the records lead to the parts of the lines. */
  ghost predicate Stored(a: string, hi: nat, keys: seq<nat>, values: seq<nat>, ls: seq<Line>) {
    && |ls| <= |keys| && |ls| <= |values|
    && forall i :: 0 <= i < |ls| ==> HoldsLine(a, hi, keys[i], values[i], ls[i])
  }

  lemma StoredKept(a: string, b: string, hi: nat, hi': nat, keys: seq<nat>, values: seq<nat>, ls: seq<Line>)
    requires Stored(a, hi, keys, values, ls) && hi <= hi' <= |b| && |b| == |a| && forall q :: 0 <= q < hi ==> b[q] == a[q]
    ensures Stored(b, hi', keys, values, ls)
  {
    hide Holds;
    forall i | 0 <= i < |ls| ensures HoldsLine(b, hi', keys[i], values[i], ls[i]) {
      assert HoldsLine(a, hi, keys[i], values[i], ls[i]);
      HoldsKept(a, b, hi, hi', keys[i], ls[i].key);
      HoldsKept(a, b, hi, hi', values[i], ls[i].value.value);
    }
  }

  lemma StoredOneMore(a: string, hi: nat, keys: seq<nat>, values: seq<nat>, ls: seq<Line>, l: Line)
    requires Stored(a, hi, keys, values, ls) && |ls| < |keys| && |ls| < |values|
    requires HoldsLine(a, hi, keys[|ls|], values[|ls|], l)
    ensures Stored(a, hi, keys, values, ls + [l])
  {
  }

  lemma StoredPointers(a: string, hi: nat, keys: seq<nat>, values: seq<nat>, keys': seq<nat>, values': seq<nat>, ls: seq<Line>)
    requires Stored(a, hi, keys, values, ls) && |keys'| == |keys| && |values'| == |values|
    requires forall i :: 0 <= i < |ls| ==> keys'[i] == keys[i] && values'[i] == values[i]
    ensures Stored(a, hi, keys', values', ls)
  {
  }

  /** Where the value starts so far: the first character that is no space, if there was one. */
  ghost predicate ValueStart(s: string, from: nat, p: nat, start: Option<nat>) {
    from <= p <= |s| &&
    match start
    case None => forall q :: from <= q < p ==> s[q] == ' '
    case Some(v) => from <= v < p && s[v] != ' ' && forall q :: from <= q < v ==> s[q] == ' '
  }

  lemma {:induction false} TrimSpaces(s: string, from: nat, v: nat, end: nat)
    requires from <= v <= end <= |s| && (forall q :: from <= q < v ==> s[q] == ' ') && (v == end || s[v] != ' ')
    ensures TrimLeft(s[from..end]) == s[v..end]
    decreases v - from
  {
    if from < v {
      assert s[from..end][1..] == s[from + 1..end];
      TrimSpaces(s, from + 1, v, end);
    }
  }

  lemma ValueEnds(s: string, key: string, from: nat, p: nat)
    requires from <= p && LineEnd(s, p) && ValueStays(s, p)
    ensures p + 3 <= |s| && KeyStays(s, p + 3)
    ensures InValue(s, key, from, p) == [Line(key, Some(TrimLeft(s[from..p])))] + InKey(s, p + 2, p + 3)
  {
  }

  /** AMI_EVENTS: the text, and pointers to the keys and values in it. */
  class Events {
    const event: array<char>
    const key: array<nat>
    const value: array<nat>
    var recCount: nat

    constructor (text: string)
      requires NUL !in text
      ensures IsString(event[..], 0, text) && key.Length == value.Length == MAX_LINES && key != value && recCount == 0
      ensures fresh(event) && fresh(key) && fresh(value)
    {
      event := new char[|text| + 1](i requires 0 <= i <= |text| => if i < |text| then text[i] else NUL);
      key, value := new nat[MAX_LINES](_ => 0), new nat[MAX_LINES](_ => 0);
      recCount := 0;
      new;
      assert event[0..0 + |text|] == text;
    }

    /** Inside a key. */
    ghost predicate KeyState(s: string, found: seq<Line>, start: nat, p: nat)
      reads this, event, key, value
    {
      && start <= p <= |s| && KeyStays(s, p) && |found| == recCount && key.Length == value.Length == MAX_LINES && key != value
      && found + InKey(s, start, p) == Lines(s)
      && Unread(event[..], start, s) && Stored(event[..], start, key[..], value[..], found)
    }

    /** Inside a value, whose text starts at `from`; the key is stored. */
    ghost predicate ValueState(s: string, found: seq<Line>, k: string, from: nat, p: nat, start: Option<nat>)
      reads this, event, key, value
    {
      && from <= p <= |s| && ValueStays(s, p) && ValueStart(s, from, p, start)
      && |found| == recCount < MAX_LINES && key.Length == value.Length == MAX_LINES && key != value
      && found + InValue(s, k, from, p) == Lines(s)
      && Unread(event[..], from, s) && Stored(event[..], from, key[..], value[..], found)
      && Holds(event[..], from, key[recCount], k)
    }

    /** A ':' ends the key. */
    method EndKey(ghost s: string, ghost found: seq<Line>, start: nat, p: nat)
      requires NUL !in s && |Lines(s)| <= MAX_LINES && KeyState(s, found, start, p) && p < |s| && event[p] == ':'
      modifies event, key
      ensures ValueState(s, found, s[start..p], p + 1, p + 1, None)
    {
      ghost var a, keys := event[..], key[..];
      assert s[p] == ':';
      SomeLine(s, s[start..p], p + 1, p + 1);
      assert |found| < |Lines(s)|;
      event[p] := NUL;
      key[recCount] := start;
      Terminated(a, event[..], s, start, p);
      StoredKept(a, event[..], start, p + 1, keys, value[..], found);
      StoredPointers(event[..], p + 1, keys, value[..], key[..], value[..], found);
      UnreadLater(a, event[..], start, p + 1, s);
    }

    /** CR LF ends the value: the record is complete. */
    method EndValue(ghost s: string, ghost found: seq<Line>, ghost k: string, ghost from: nat, p: nat, start: nat)
      requires NUL !in s && ValueState(s, found, k, from, p, if start < p then Some(start) else None) && LineEnd(s, p)
      requires start <= p && s[start] != ' '
      modifies this`recCount, event, value
      ensures KeyState(s, found + [Line(k, Some(TrimLeft(s[from..p])))], p + 2, p + 3)
    {
      hide Holds, Unread, KeyStays, ValueStays, InKey, InValue, TrimLeft, LineEnd;
      ValueEnds(s, k, from, p);
      ghost var a, values, l := event[..], value[..], Line(k, Some(TrimLeft(s[from..p])));
      TrimSpaces(s, from, start, p);
      UnreadLater(a, a, from, start, s);
      event[p] := NUL;
      event[p + 1] := NUL;
      value[recCount] := start;
      Terminated(a, event[..], s, start, p);
      HoldsKept(event[..], event[..], p + 1, p + 2, start, s[start..p]);
      HoldsKept(a, event[..], from, p + 2, key[recCount], k);
      StoredKept(a, event[..], from, p + 2, key[..], values, found);
      StoredPointers(event[..], p + 2, key[..], values, key[..], value[..], found);
      StoredOneMore(event[..], p + 2, key[..], value[..], found, l);
      UnreadLater(a, event[..], from, p + 2, s);
      recCount := recCount + 1;
      assert found + ([l] + InKey(s, p + 2, p + 3)) == found + [l] + InKey(s, p + 2, p + 3);
    }

    /** parse_amievent, on any text it does not leave. */
    method Parse(ghost s: string)
      requires !EndsInKeyLine(s) && |Lines(s)| <= MAX_LINES && IsString(event[..], 0, s)
      requires key.Length == value.Length == MAX_LINES && key != value
      modifies this`recCount, event, key, value
      ensures recCount == |Complete(Lines(s))| && Stored(event[..], event.Length, key[..], value[..], Complete(Lines(s)))
    {
      hide Stored, Unread, Holds, InKey, InValue, ValueStart, IsString, KeyStays, ValueStays, Complete, EndsInKeyLine;
      StepsOverExactly(s);
      var p: nat, isHeader := 0, true;
      var start: Option<nat> := Some(0);
      ghost var found: seq<Line>, k, from: nat := [], "", 0;
      recCount := 0;
      StartParse(event[..], key[..], value[..], s);
      while event[p] != NUL
        invariant p <= |s| < event.Length
        invariant if isHeader then start.Some? && KeyState(s, found, start.value, p) else ValueState(s, found, k, from, p, start)
        decreases |s| - p
      {
        NotAtEnd(event[..], if isHeader then start.value else from, p, s);
        if isHeader {
          if event[p] == ':' {
            EndKey(s, found, start.value, p);
            k, from := s[start.value..p], p + 1;
            isHeader := false;
            start := None;
          } else {
            KeyOn(s, start.value, p);
          }
        } else {
          ghost var before := start;
          if start.None? && event[p] != ' ' {
            start := Some(p);
          }
          ValueOn(s, k, from, p, before, start);
          if event[p] == '\r' && event[p + 1] == '\n' {
            EndValue(s, found, k, from, p, start.value);
            found := found + [Line(k, Some(TrimLeft(s[from..p])))];
            isHeader := true;
            start := Some(p + 2);
            p := p + 2;
          }
        }
        p := p + 1;
      }
      FinishParse(event[..], s, found, k, if isHeader then start.value else from, p, isHeader, key[..], value[..]);
    }

    /** get_amivalue */
    method GetValue(wanted: string, ghost ls: seq<Line>) returns (v: string)
      requires recCount == |ls| && Stored(event[..], event.Length, key[..], value[..], ls)
      ensures v == First(ls, wanted)
    {
      var i := 0;
      assert ls[0..] == ls;
      while i < recCount
        invariant 0 <= i <= recCount && First(ls[i..], wanted) == First(ls, wanted)
      {
        assert HoldsLine(event[..], event.Length, key[..][i], value[..][i], ls[i]);
        assert ls[i..][0] == ls[i] && ls[i..][1..] == ls[i + 1..];
        var k := Take(event, key[i], ls[i].key);
        if k == wanted {
          v := Take(event, value[i], ls[i].value.value);
          return;
        }
        i := i + 1;
      }
      v := "";
    }
  }

  lemma {:induction false} RenderEndsBlank(es: seq<Entry>)
    requires |es| > 0 && forall e <- es :: Sendable(e)
    ensures EndsBlank(Render(es))
  {
    hide LineEnd;
    assert es[0] in es;
    var more := Render(es[1..]);
    var pre := es[0].key + ": " + es[0].value;
    assert Render(es) == pre + EOL + more;
    if |es| > 1 {
      RenderEndsBlank(es[1..]);
      BlankBehind(pre + EOL, more);
    } else {
      BlankEnd(pre);
    }
  }

  lemma BlankBehind(pre: string, more: string)
    requires EndsBlank(more) && NUL !in pre
    ensures EndsBlank(pre + more)
  {
  }

  lemma BlankEnd(pre: string)
    requires NUL !in pre
    ensures EndsBlank(pre + EOL + EOL)
  {
  }

  /** Entry i is the first one with the key. */
  predicate FirstAt(es: seq<Entry>, key: string, i: nat) {
    i < |es| && es[i].key == key && forall j :: 0 <= j < i ==> es[j].key != key
  }

  /** The first matching value. */
  lemma {:induction false} FirstIs(es: seq<Entry>, key: string, i: nat)
    requires FirstAt(es, key, i)
    ensures First(LinesOf(es), key) == es[i].value
  {
    if i > 0 {
      assert LinesOf(es)[1..] == LinesOf(es[1..]);
      FirstIs(es[1..], key, i - 1);
    }
  }

  /** "" if there is none. */
  lemma {:induction false} FirstIsNone(es: seq<Entry>, key: string)
    requires forall i :: 0 <= i < |es| ==> es[i].key != key
    ensures First(LinesOf(es), key) == ""
  {
    if es != [] {
      assert LinesOf(es)[1..] == LinesOf(es[1..]);
      FirstIsNone(es[1..], key);
    }
  }

  /** A rendered message, parsed and asked for a key. */
  method ParseThenGet(es: seq<Entry>, key: string) returns (count: nat, v: string)
    requires 0 < |es| <= MAX_LINES && forall e <- es :: Sendable(e)
    ensures count == |es|
    ensures forall i: nat :: FirstAt(es, key, i) ==> v == es[i].value
    ensures (forall i :: 0 <= i < |es| ==> es[i].key != key) ==> v == ""
  {
    var text := Render(es);
    RenderEndsBlank(es);
    BlankEndStays(text, 0);
    StepsOverExactly(text);
    assert Complete(LinesOf(es)) == LinesOf(es);
    LinesOfRender(text, 0, 0, es);
    assert text[0..] == text;
    var e := new Events(text);
    e.Parse(text);
    count := e.recCount;
    v := e.GetValue(key, LinesOf(es));
    forall i: nat | FirstAt(es, key, i) ensures v == es[i].value { FirstIs(es, key, i); }
    if forall i :: 0 <= i < |es| ==> es[i].key != key { FirstIsNone(es, key); }
  }

  lemma StartParse(a: string, keys: seq<nat>, values: seq<nat>, s: string)
    requires IsString(a, 0, s)
    ensures Unread(a, 0, s) && Stored(a, 0, keys, values, []) && [] + InKey(s, 0, 0) == Lines(s) && |s| < |a| && NUL !in s
  {
    assert forall q :: 0 <= q < |s| ==> a[q] == a[0..0 + |s|][q] == s[q];
  }

  lemma NotAtEnd(a: string, lo: nat, p: nat, s: string)
    requires Unread(a, lo, s) && lo <= p <= |s| && a[p] != NUL
    ensures p < |s| && a[p] == s[p] && p + 1 < |a| && (a[p + 1] == if p + 1 < |s| then s[p + 1] else NUL)
  {
  }

  lemma KeyOn(s: string, start: nat, p: nat)
    requires start <= p < |s| && s[p] != ':'
    ensures InKey(s, start, p) == InKey(s, start, p + 1) && KeyStays(s, p) == KeyStays(s, p + 1)
  {
  }

  lemma ValueOn(s: string, k: string, from: nat, p: nat, start: Option<nat>, start': Option<nat>)
    requires from <= p < |s| && ValueStays(s, p) && ValueStart(s, from, p, start)
    requires start' == if start.None? && s[p] != ' ' then Some(p) else start
    ensures !LineEnd(s, p) ==> InValue(s, k, from, p) == InValue(s, k, from, p + 1) && ValueStays(s, p + 1) && ValueStart(s, from, p + 1, start')
    ensures LineEnd(s, p) ==> start'.Some? && start'.value <= p && s[start'.value] != ' ' && start == (if start'.value < p then start' else None)
  {
    hide InKey, KeyStays;
  }

  lemma FinishParse(a: string, s: string, found: seq<Line>, k: string, lo: nat, p: nat, isHeader: bool, keys: seq<nat>, values: seq<nat>)
    requires NUL !in s && lo <= p <= |s| < |a| && a[p] == NUL && Unread(a, lo, s) && Stored(a, lo, keys, values, found)
    requires if isHeader then found + InKey(s, lo, p) == Lines(s) else found + InValue(s, k, lo, p) == Lines(s)
    ensures found == Complete(Lines(s)) && Stored(a, |a|, keys, values, found)
  {
    assert forall q :: 0 <= q < |s| ==> s[q] in s;
    assert p == |s|;
    StoredKept(a, a, lo, |a|, keys, values, found);
    if found != [] { assert HoldsLine(a, lo, keys[|found| - 1], values[|found| - 1], found[|found| - 1]); }
  }

  lemma {:induction false} SomeLine(s: string, key: string, from: nat, p: nat)
    requires from <= p
    ensures |InValue(s, key, from, p)| > 0
    decreases |s| - p
  {
    if p < |s| && !LineEnd(s, p) { SomeLine(s, key, from, p + 1); }
  }
}