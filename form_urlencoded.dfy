/**
 * The part of `URLSearchParams` the token exchange uses: parsing an
 * application/x-www-form-urlencoded body into name/value pairs and `get`,
 * which returns the value of the first pair with a given name.
 * Percent-decoding and '+' are not applied (see the README).
 */
module FormUrlEncoded {
  import opened Wrappers
  import opened Strings

  type Pair = (string, string)

  /** `s.split(c)`. */
  function Split(s: string, c: char): (parts: seq<string>)
    ensures |parts| >= 1
    ensures forall k :: 0 <= k < |parts| ==> c !in parts[k]
    decreases |s|
  {
    if c !in s then [s]
    else
      var i := IndexOf(s, c);
      [s[..i]] + Split(s[i + 1..], c)
  }

  /** `parts.join(c)`. */
  function Join(parts: seq<string>, c: char): string {
    if parts == [] then ""
    else if |parts| == 1 then parts[0]
    else parts[0] + [c] + Join(parts[1..], c)
  }

  lemma {:induction false} SplitJoin(parts: seq<string>, c: char)
    requires |parts| >= 1
    requires forall k :: 0 <= k < |parts| ==> c !in parts[k]
    ensures Split(Join(parts, c), c) == parts
    decreases |parts|
  {
    if |parts| == 1 {
    } else {
      var rest := Join(parts[1..], c);
      var s := Join(parts, c);
      assert s == parts[0] + [c] + rest;
      IndexOfAfterPrefix(parts[0], c, rest);
      assert s[..|parts[0]|] == parts[0];
      assert s[|parts[0]| + 1..] == rest;
      SplitJoin(parts[1..], c);
    }
  }

  /** One `name=value` segment, split at its first '='; a segment without '=' has the empty value. */
  function SplitPair(seg: string): (p: Pair)
    ensures '=' !in seg ==> p == (seg, "")
    ensures '=' in seg ==> seg == p.0 + "=" + p.1 && '=' !in p.0
  {
    if '=' in seg then
      var i := IndexOf(seg, '=');
      assert seg == seg[..i] + "=" + seg[i + 1..];
      (seg[..i], seg[i + 1..])
    else (seg, "")
  }

  /** The segments between '&', with empty segments skipped. */
  function PairsOf(segs: seq<string>): seq<Pair> {
    if segs == [] then []
    else if segs[0] == "" then PairsOf(segs[1..])
    else [SplitPair(segs[0])] + PairsOf(segs[1..])
  }

  /** `new URLSearchParams(s)`: a leading '?' is dropped, then the body is split on '&'. */
  function Parse(s: string): seq<Pair> {
    var body := if s != [] && s[0] == '?' then s[1..] else s;
    PairsOf(Split(body, '&'))
  }

  /** The value of the first pair named `name`. */
  function Lookup(ps: seq<Pair>, name: string): (r: Option<string>)
    ensures r.None? <==> forall k :: 0 <= k < |ps| ==> ps[k].0 != name
    ensures r.Some? ==>
      exists k :: 0 <= k < |ps| && ps[k] == (name, r.value) && forall j :: 0 <= j < k ==> ps[j].0 != name
  {
    if ps == [] then None
    else if ps[0].0 == name then Some(ps[0].1)
    else
      var r := Lookup(ps[1..], name);
      assert forall k :: 0 <= k < |ps| - 1 ==> ps[1..][k] == ps[k + 1];
      r
  }

  /** `new URLSearchParams(s).get(name)`. */
  function Get(s: string, name: string): Option<string> {
    Lookup(Parse(s), name)
  }

  /** The body a client sends for the pairs `ps`, without encoding. */
  function Segment(p: Pair): string {
    p.0 + "=" + p.1
  }

  function Serialize(ps: seq<Pair>): string {
    Join(seq(|ps|, k requires 0 <= k < |ps| => Segment(ps[k])), '&')
  }

  /** Pairs that survive serialisation unchanged: no '&' anywhere, no '=' or '?' in a name. */
  predicate WellFormed(ps: seq<Pair>) {
    forall k :: 0 <= k < |ps| ==>
      '&' !in ps[k].0 && '&' !in ps[k].1 && '=' !in ps[k].0 && '?' !in ps[k].0
  }

  lemma {:induction false} PairsOfSegments(ps: seq<Pair>)
    requires WellFormed(ps)
    ensures PairsOf(seq(|ps|, k requires 0 <= k < |ps| => Segment(ps[k]))) == ps
    decreases |ps|
  {
    var segs := seq(|ps|, k requires 0 <= k < |ps| => Segment(ps[k]));
    if ps != [] {
      assert segs[0] == ps[0].0 + "=" + ps[0].1;
      assert segs[0][|ps[0].0|] == '=';
      assert segs[0] != "";
      IndexOfAfterPrefix(ps[0].0, '=', ps[0].1);
      assert segs[0][..|ps[0].0|] == ps[0].0;
      assert segs[0][|ps[0].0| + 1..] == ps[0].1;
      assert SplitPair(segs[0]) == ps[0];
      assert segs[1..] == seq(|ps[1..]|, k requires 0 <= k < |ps[1..]| => Segment(ps[1..][k]));
      PairsOfSegments(ps[1..]);
    }
  }

  /** Parsing a serialised list of well-formed pairs gives the pairs back. */
  lemma ParseSerialize(ps: seq<Pair>)
    requires WellFormed(ps)
    ensures Parse(Serialize(ps)) == ps
  {
    var segs := seq(|ps|, k requires 0 <= k < |ps| => Segment(ps[k]));
    var s := Serialize(ps);
    if ps == [] {
      assert segs == [];
      assert s == "";
      assert Split(s, '&') == [""];
      assert [""][1..] == [];
      assert PairsOf([""]) == [];
    } else {
      assert forall k :: 0 <= k < |segs| ==> '&' !in segs[k] by {
        forall k | 0 <= k < |segs| ensures '&' !in segs[k] {
          assert segs[k] == ps[k].0 + "=" + ps[k].1;
        }
      }
      SplitJoin(segs, '&');
      assert s == segs[0] + Join(segs, '&')[|segs[0]|..] by {
        JoinStartsWithFirst(segs, '&');
      }
      assert segs[0] == ps[0].0 + "=" + ps[0].1;
      assert s[0] != '?' by {
        if ps[0].0 == [] {
          assert s[0] == segs[0][0] == '=';
        } else {
          assert s[0] == ps[0].0[0];
        }
      }
      PairsOfSegments(ps);
    }
  }

  lemma {:induction false} JoinStartsWithFirst(parts: seq<string>, c: char)
    requires |parts| >= 1
    ensures |parts[0]| <= |Join(parts, c)| && Join(parts, c)[..|parts[0]|] == parts[0]
    decreases |parts|
  {
  }

  lemma GetSerialized(ps: seq<Pair>, name: string)
    requires WellFormed(ps)
    ensures Get(Serialize(ps), name) == Lookup(ps, name)
  {
    ParseSerialize(ps);
  }
}
