/** When a reported path names one place in its document, and when it names two. */
module JsonPath {
  import opened Common
  import opened Text
  import opened JsonBatch

  predicate IndexedAt(key: string, at: nat, n: nat) {
    at <= |key| && key[at..] == SegmentText(Index(n))
  }

  /** The key ends as an index is written: `tags[1]`. */
  ghost predicate EndsInIndex(key: string) {
    exists at: nat, n: nat :: IndexedAt(key, at, n)
  }

  /** A key no path can confuse with two: it holds no dot, and does not end as an index does. */
  ghost predicate Plain(key: string) {
    '.' !in key && !EndsInIndex(key)
  }

  ghost predicate PlainPath(path: seq<Segment>) {
    forall i :: 0 <= i < |path| && path[i].Key? ==> Plain(path[i].k)
  }

  lemma PathsBeginASegment(path: seq<Segment>)
    requires path != []
    ensures PathText(path) != "" && PathText(path)[0] == if path[0].Index? then '[' else '.'
  {
  }

  /** The inside of an index holds digits and its closing bracket. */
  lemma InsideAnIndex(n: nat, i: nat)
    requires 0 < i < |SegmentText(Index(n))|
    ensures SegmentText(Index(n))[i] != '[' && SegmentText(Index(n))[i] != '.'
  {
    DecimalsAreDigits(n);
  }

  /** Two ways to cut one text: the longer front goes on with what the shorter leaves. */
  lemma Overlap(a: string, b: string, c: string, d: string)
    requires a + b == c + d && |a| <= |c|
    ensures c == a + c[|a|..] && b == c[|a|..] + d
  {
    assert a == (a + b)[..|a|] == (c + d)[..|a|];
    assert b == (a + b)[|a|..] == (c + d)[|a|..];
  }

  lemma BracketsAgree(a: string, t: string, b: string, u: string)
    requires ']' !in a && ']' !in b && ("[" + a) + [']'] + t == ("[" + b) + [']'] + u
    ensures a == b && t == u
  {
    FindIs("[" + a, ']', t);
    FindIs("[" + b, ']', u);
    var x := ("[" + a) + [']'] + t;
    assert |a| == |b|;
    assert a == x[1..|a| + 1] && b == x[1..|a| + 1];
    assert t == x[|a| + 2..] && u == x[|a| + 2..];
  }

  lemma IndexesAgree(n: nat, t: string, m: nat, u: string)
    requires SegmentText(Index(n)) + t == SegmentText(Index(m)) + u
    ensures n == m && t == u
  {
    DecimalsAreDigits(n);
    DecimalsAreDigits(m);
    BracketsAgree(Decimal(n), t, Decimal(m), u);
    DecimalReadsBack(n);
    DecimalReadsBack(m);
  }

  lemma IndexedAtTheEnd(front: string, tail: string)
    requires EndsInIndex(tail)
    ensures EndsInIndex(front + tail)
  {
    var at: nat, n: nat :| IndexedAt(tail, at, n);
    assert (front + tail)[|front| + at..] == tail[at..];
    assert IndexedAt(front + tail, |front| + at, n);
  }

  /** What a path runs on past a shorter key, the longer key must end with: an index. */
  lemma {:induction false} OverhangIsAnIndex(rest: seq<Segment>, over: string, after: seq<Segment>)
    requires PathText(rest) == over + PathText(after) && over != "" && '.' !in over
    ensures EndsInIndex(over)
    decreases rest
  {
    PathsBeginASegment(rest);
    assert PathText(rest)[0] == over[0];
    assert over[0] in over;
    var first, later := SegmentText(rest[0]), PathText(rest[1..]);
    if |over| < |first| {
      Overlap(over, PathText(after), first, later);
      InsideAnIndex(rest[0].i, |over|);
      EndsInsideNothing(first, |over|, later, after);
    } else {
      Overlap(first, later, over, PathText(after));
      var tail := over[|first|..];
      if tail == "" {
        assert over == first + "" == first;
        assert IndexedAt(over, 0, rest[0].i);
      } else {
        OverhangIsAnIndex(rest[1..], tail, after);
        IndexedAtTheEnd(first, tail);
      }
    }
  }

  lemma EndsInsideNothing(first: string, at: nat, later: string, after: seq<Segment>)
    requires at < |first| && first[at] != '[' && first[at] != '.'
    ensures PathText(after) != first[at..] + later
  {
    if after != [] {
      PathsBeginASegment(after);
    }
  }

  lemma KeysAgree(k: string, rest: seq<Segment>, j: string, after: seq<Segment>)
    requires k + PathText(rest) == j + PathText(after) && Plain(j) && |k| <= |j|
    ensures k == j
  {
    Overlap(k, PathText(rest), j, PathText(after));
    if |k| < |j| {
      OverhangIsAnIndex(rest, j[|k|..], after);
      IndexedAtTheEnd(k, j[|k|..]);
    } else {
      assert j == k + "" == k;
    }
  }

  /** Paths through plain keys are written apart. */
  lemma {:induction false} PlainPathsReadApart(p: seq<Segment>, q: seq<Segment>)
    requires PlainPath(p) && PlainPath(q) && PathText(p) == PathText(q)
    ensures p == q
    decreases p
  {
    if p == [] || q == [] {
      if p != [] {
        PathsBeginASegment(p);
      }
      if q != [] {
        PathsBeginASegment(q);
      }
    } else {
      PathsBeginASegment(p);
      PathsBeginASegment(q);
      HeadsAgree(p, q);
      PlainPathsReadApart(p[1..], q[1..]);
    }
  }

  lemma DotsAgree(k: string, t: string, j: string, u: string)
    requires ("." + k) + t == ("." + j) + u
    ensures k + t == j + u
  {
    assert k + t == (("." + k) + t)[1..] && j + u == (("." + j) + u)[1..];
  }

  lemma SameFront(k: string, t: string, u: string)
    requires k + t == k + u
    ensures t == u
  {
    assert t == (k + t)[|k|..] && u == (k + u)[|k|..];
  }

  lemma HeadsAgree(p: seq<Segment>, q: seq<Segment>)
    requires p != [] && q != [] && PlainPath(p) && PlainPath(q) && PathText(p) == PathText(q)
    requires p[0].Index? == q[0].Index?
    ensures p[0] == q[0] && PathText(p[1..]) == PathText(q[1..])
  {
    var t, u := PathText(p[1..]), PathText(q[1..]);
    if p[0].Index? {
      IndexesAgree(p[0].i, t, q[0].i, u);
    } else {
      var k, j := p[0].k, q[0].k;
      DotsAgree(k, t, j, u);
      if |k| <= |j| {
        KeysAgree(k, p[1..], j, q[1..]);
      } else {
        KeysAgree(j, q[1..], k, p[1..]);
      }
      SameFront(k, t, u);
    }
  }

  /** Every object in the document, at any depth: one field a key, and every key plain. */
  ghost predicate PlainDocument(json: Json) {
    forall place :: At(json, place).Some? && At(json, place).value.Object? ==> PlainFields(At(json, place).value.fields)
  }

  ghost predicate PlainFields(fields: seq<Field>) {
    && OneFieldAKey(fields)
    && forall i :: 0 <= i < |fields| ==> Plain(fields[i].key)
  }

  predicate OneFieldAKey(fields: seq<Field>) {
    forall i, j :: 0 <= i < j < |fields| ==> fields[i].key != fields[j].key
  }

  lemma ChildrenArePlain(json: Json, i: nat)
    requires PlainDocument(json) && i < Children(json)
    ensures PlainDocument(Child(json, i))
  {
    forall place | At(Child(json, i), place).Some? && At(Child(json, i), place).value.Object?
      ensures PlainFields(At(Child(json, i), place).value.fields)
    {
      assert ([i] + place)[1..] == place;
      assert At(json, [i] + place) == At(Child(json, i), place);
    }
  }

  lemma {:induction false} PlacesReadApart(json: Json, p: seq<nat>, q: seq<nat>)
    requires PlainDocument(json) && At(json, p).Some? && At(json, q).Some?
    requires Named(json, p) == Named(json, q)
    ensures p == q
    decreases p
  {
    if p != [] && q != [] {
      assert At(json, []) == Some(json);
      assert Named(json, p)[0] == SegmentAt(json, p[0]) && Named(json, q)[0] == SegmentAt(json, q[0]);
      assert p[0] == q[0];
      assert Named(json, p)[1..] == Named(Child(json, p[0]), p[1..]) && Named(json, q)[1..] == Named(Child(json, q[0]), q[1..]);
      ChildrenArePlain(json, p[0]);
      PlacesReadApart(Child(json, p[0]), p[1..], q[1..]);
    }
  }

  lemma {:induction false} NamesArePlain(json: Json, place: seq<nat>)
    requires PlainDocument(json) && At(json, place).Some?
    ensures PlainPath(Named(json, place))
    decreases place
  {
    if place != [] {
      assert At(json, []) == Some(json);
      ChildrenArePlain(json, place[0]);
      NamesArePlain(Child(json, place[0]), place[1..]);
    }
  }

  /** In a document whose keys are plain, a reported path names one place. */
  lemma PathNamesOnePlace(json: Json, p: seq<nat>, q: seq<nat>)
    requires PlainDocument(json) && At(json, p).Some? && At(json, q).Some?
    ensures PathText(Named(json, p)) == PathText(Named(json, q)) <==> p == q
  {
    if PathText(Named(json, p)) == PathText(Named(json, q)) {
      NamesArePlain(json, p);
      NamesArePlain(json, q);
      PlainPathsReadApart(Named(json, p), Named(json, q));
      PlacesReadApart(json, p, q);
    }
  }

  const BAD := Number(Integer(I64_MAX + 1))

  const GOOD := Number(Integer(1))

  /** One object of two fields, in an array: what confuses a key with the pieces it is made of. */
  function Pair(key: string, value: Json, other: string): Json {
    Array([Object([Field(key, value), Field(other, BAD)])])
  }

  /** A good leaf and a bad one, under one text. */
  ghost predicate Confused(json: Json, good: seq<nat>, bad: seq<nat>) {
    && BadAt(json, bad) && At(json, good).Some? && !BadAt(json, good)
    && PathText(Named(json, good)) == PathText(Named(json, bad))
  }

  /** Where the second field of the pair is, and what its path is. */
  lemma BadOfPair(key: string, below: Json, other: string)
    ensures var json, bad := Pair(key, below, other), [0, 1];
      At(json, bad) == Some(BAD) && Named(json, bad) == [Index(0), Key(other)]
  {
    var json := Pair(key, below, other);
    var signal, bad := json.items[0], [0, 1];
    assert bad[1..] == [1] && bad[1..][1..] == [];
    assert Child(json, 0) == signal && Child(signal, 1) == BAD;
    assert Named(signal, [1]) == [Key(other)] + Named(BAD, []) == [Key(other)];
    assert Named(json, bad) == [Index(0)] + Named(signal, [1]) == [Index(0), Key(other)];
  }

  /** Where a place below the first field is, and what its path is. */
  lemma GoodOfPair(key: string, below: Json, other: string, place: seq<nat>)
    requires At(below, place).Some?
    ensures var json, good := Pair(key, below, other), [0, 0] + place;
      At(json, good) == At(below, place) && Named(json, good) == [Index(0), Key(key)] + Named(below, place)
  {
    var json := Pair(key, below, other);
    var signal, good := json.items[0], [0, 0] + place;
    assert good[1..] == [0] + place && ([0] + place)[1..] == place;
    assert Child(json, 0) == signal && Child(signal, 0) == below;
    assert At(json, good) == At(signal, [0] + place) == At(below, place);
    assert Named(signal, [0] + place) == [Key(key)] + Named(below, place);
    assert Named(json, good) == [Index(0)] + Named(signal, [0] + place);
  }

  lemma KeyText(key: string, path: seq<Segment>)
    ensures PathText([Key(key)] + path) == "." + (key + PathText(path))
  {
    assert ([Key(key)] + path)[1..] == path;
    Regroup(".", key, PathText(path));
  }

  lemma PairTexts(key: string, path: seq<Segment>, other: string)
    requires key + PathText(path) == other
    ensures PathText([Index(0), Key(key)] + path) == PathText([Index(0), Key(other)])
  {
    KeyText(key, path);
    KeyText(other, []);
    assert other + "" == other;
    assert ([Index(0), Key(key)] + path)[1..] == [Key(key)] + path;
    assert [Index(0), Key(other)][1..] == [Key(other)] + [];
  }

  lemma PairConfuses(key: string, below: Json, other: string, place: seq<nat>)
    requires At(below, place).Some? && !BadAt(below, place)
    requires key + PathText(Named(below, place)) == other
    ensures Confused(Pair(key, below, other), [0, 0] + place, [0, 1])
  {
    BadOfPair(key, below, other);
    GoodOfPair(key, below, other, place);
    PairTexts(key, Named(below, place), other);
  }

  function Wrapped(key: string, below: Json): Json {
    Object([Field(key, below)])
  }

  function Padded(n: nat, below: Json): Json {
    Array(seq(n + 1, i requires 0 <= i <= n => if i == n then below else Null))
  }

  lemma ParentIsPlain(json: Json)
    requires json.Object? ==> PlainFields(json.fields)
    requires forall i :: 0 <= i < Children(json) ==> PlainDocument(Child(json, i))
    ensures PlainDocument(json)
  {
    forall place | At(json, place).Some? && At(json, place).value.Object?
      ensures PlainFields(At(json, place).value.fields)
    {
      if place != [] {
        assert At(Child(json, place[0]), place[1..]) == At(json, place);
      }
    }
  }

  lemma LeavesArePlain(json: Json)
    requires Children(json) == 0 && !json.Object?
    ensures PlainDocument(json)
  {
    ParentIsPlain(json);
  }

  lemma WrappedNames(key: string, below: Json, place: seq<nat>)
    requires Plain(key) && PlainDocument(below) && At(below, place).Some?
    ensures var json := Wrapped(key, below);
      && PlainDocument(json) && At(json, [0] + place) == At(below, place)
      && PathText(Named(json, [0] + place)) == "." + (key + PathText(Named(below, place)))
  {
    var json := Wrapped(key, below);
    assert Child(json, 0) == below && ([0] + place)[1..] == place;
    ParentIsPlain(json);
    assert Named(json, [0] + place) == [Key(key)] + Named(below, place);
    KeyText(key, Named(below, place));
  }

  lemma PaddedNames(n: nat, below: Json, place: seq<nat>)
    requires PlainDocument(below) && At(below, place).Some?
    ensures var json := Padded(n, below);
      && PlainDocument(json) && At(json, [n] + place) == At(below, place)
      && PathText(Named(json, [n] + place)) == SegmentText(Index(n)) + PathText(Named(below, place))
  {
    var json := Padded(n, below);
    assert Child(json, n) == below && ([n] + place)[1..] == place;
    LeavesArePlain(Null);
    ParentIsPlain(json);
    var path := [Index(n)] + Named(below, place);
    assert Named(json, [n] + place) == path && path[1..] == Named(below, place);
  }

  lemma AroundTheDot(a: string, b: string, text: string)
    ensures a + ("." + (b + text)) == (a + ['.'] + b) + text
  {
  }

  lemma BeforeTheIndex(key: string, i: nat, index: string, text: string)
    requires i <= |key| && key[i..] == index
    ensures key[..i] + (index + text) == key + text
  {
    assert key == key[..i] + index;
  }

  /** Any key comes apart into a plain key and a path through plain keys that is written the same. */
  lemma {:induction false} KeysComeApart(key: string, inner: Json, place: seq<nat>) returns (k: string, below: Json, at: seq<nat>)
    requires PlainDocument(inner) && At(inner, place) == Some(GOOD)
    ensures Plain(k) && PlainDocument(below) && At(below, at) == Some(GOOD)
    ensures k + PathText(Named(below, at)) == key + PathText(Named(inner, place))
    decreases |key|
  {
    var text := PathText(Named(inner, place));
    if '.' in key {
      var (a, b) := SplitOnce(key, '.').value;
      var kb, belowB, atB := KeysComeApart(b, inner, place);
      WrappedNames(kb, belowB, atB);
      k, below, at := KeysComeApart(a, Wrapped(kb, belowB), [0] + atB);
      AroundTheDot(a, b, text);
    } else if EndsInIndex(key) {
      var i: nat, n: nat :| IndexedAt(key, i, n);
      PaddedNames(n, inner, place);
      k, below, at := KeysComeApart(key[..i], Padded(n, inner), [n] + place);
      BeforeTheIndex(key, i, SegmentText(Index(n)), text);
    } else {
      k, below, at := key, inner, place;
    }
  }

  /** One field a key in every object, and every key plain but possibly this one. */
  ghost predicate PlainBut(json: Json, key: string) {
    forall place :: At(json, place).Some? && At(json, place).value.Object? ==>
      (OneFieldAKey(At(json, place).value.fields) && PlainOr(At(json, place).value.fields, key))
  }

  ghost predicate PlainOr(fields: seq<Field>, key: string) {
    forall i :: 0 <= i < |fields| ==> Plain(fields[i].key) || fields[i].key == key
  }

  lemma PairIsPlainBut(k: string, below: Json, key: string)
    requires Plain(k) && PlainDocument(below) && !Plain(key)
    ensures PlainBut(Pair(k, below, key), key)
  {
    var json := Pair(k, below, key);
    var signal := json.items[0];
    LeavesArePlain(BAD);
    assert OneFieldAKey(signal.fields) && PlainOr(signal.fields, key);
    forall place | At(json, place).Some? && At(json, place).value.Object?
      ensures OneFieldAKey(At(json, place).value.fields) && PlainOr(At(json, place).value.fields, key)
    {
      if place != [] {
        assert At(json, place) == At(signal, place[1..]);
        if place[1..] != [] {
          assert PlainDocument(Child(signal, place[1..][0]));
          BelowIsPlain(signal, place[1..]);
        }
      }
    }
  }

  lemma BelowIsPlain(json: Json, place: seq<nat>)
    requires place != [] && At(json, place).Some? && At(json, place).value.Object?
    requires PlainDocument(Child(json, place[0]))
    ensures PlainFields(At(json, place).value.fields)
  {
    assert At(json, place) == At(Child(json, place[0]), place[1..]);
  }

  /**
   * Exactly which keys can make a reported path name two places, among keys that cannot: those with
   * a dot in them, and those that end as an index is written.
   */
  lemma ConfusableExactly(key: string)
    ensures (exists json, good, bad :: PlainBut(json, key) && Confused(json, good, bad)) <==> !Plain(key)
  {
    if Plain(key) {
      forall json, good, bad | PlainBut(json, key) ensures !Confused(json, good, bad) {
        assert PlainDocument(json) by {
          forall place | At(json, place).Some? && At(json, place).value.Object?
            ensures PlainFields(At(json, place).value.fields)
          {
          }
        }
        if At(json, good).Some? && At(json, bad).Some? {
          PathNamesOnePlace(json, good, bad);
        }
      }
    } else {
      LeavesArePlain(GOOD);
      var k, below, at := KeysComeApart(key, GOOD, []);
      assert key + PathText(Named(GOOD, [])) == key;
      PairConfuses(k, below, key, at);
      PairIsPlainBut(k, below, key);
    }
  }

  /** The collision at one document: `[{"a":{"b":1},"a.b":9223372036854775808}]` reports `[0].a.b`. */
  lemma OneConfusedDocument()
    ensures var json := Pair("a", Object([Field("b", GOOD)]), "a.b");
      Confused(json, [0, 0, 0], [0, 1]) && PathText(Named(json, [0, 1])) == "[0].a.b"
  {
    var below := Object([Field("b", GOOD)]);
    assert [0][1..] == [] && Named(below, [0]) == [Key("b")] + Named(GOOD, []) == [Key("b")];
    assert PathText([Key("b")]) == ".b" + "";
    PairConfuses("a", below, "a.b", [0]);
    assert [0, 0] + [0] == [0, 0, 0];
    BadOfPair("a", below, "a.b");
    assert [Index(0), Key("a.b")][1..] == [Key("a.b")] && [Key("a.b")][1..] == [];
    assert Decimal(0) == "0";
    assert PathText([Index(0), Key("a.b")]) == "[0]" + (".a.b" + "");
  }
}
