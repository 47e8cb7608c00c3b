/** URL query strings `k1=v1&k2=v2&...`: how one is written from its parameters, and how it
    is split back into parameters. The reader is the partner of the news request builder. */
module QueryString {

  /** One `key=value` parameter. */
  datatype Param = Param(key: string, value: string)

  /** The first position of `c` in `s`, or |s| when `c` does not occur. */
  function IndexOf(s: string, c: char): (r: nat)
    ensures r <= |s|
    ensures r < |s| ==> s[r] == c
    ensures forall i :: 0 <= i < r ==> s[i] != c
  {
    if |s| == 0 then 0
    else if s[0] == c then 0
    else 1 + IndexOf(s[1..], c)
  }

  /** The pieces of `s` between occurrences of `c`. */
  function Split(s: string, c: char): (r: seq<string>)
    ensures |r| > 0
    decreases |s|
  {
    var i := IndexOf(s, c);
    if i == |s| then [s] else [s[..i]] + Split(s[i + 1..], c)
  }

  /** The pieces joined with `c` between them. */
  function Join(pieces: seq<string>, c: char): string {
    if |pieces| == 0 then ""
    else if |pieces| == 1 then pieces[0]
    else pieces[0] + [c] + Join(pieces[1..], c)
  }

  function Encode(p: Param): string {
    p.key + "=" + p.value
  }

  function EncodeAll(ps: seq<Param>): (r: seq<string>)
    ensures |r| == |ps|
    ensures forall i :: 0 <= i < |ps| ==> r[i] == Encode(ps[i])
  {
    if |ps| == 0 then [] else [Encode(ps[0])] + EncodeAll(ps[1..])
  }

  /** The query string for a list of parameters. */
  function Write(ps: seq<Param>): string {
    Join(EncodeAll(ps), '&')
  }

  lemma WriteOne(p: Param)
    ensures Write([p]) == Encode(p)
  {
  }

  lemma WriteCons(p: Param, ps: seq<Param>)
    requires |ps| > 0
    ensures Write([p] + ps) == Encode(p) + "&" + Write(ps)
  {
    assert EncodeAll([p] + ps)[1..] == EncodeAll(ps);
  }

  /** One piece read as a parameter: the key runs up to the first '='. */
  function ReadParam(piece: string): Param {
    var i := IndexOf(piece, '=');
    if i == |piece| then Param(piece, "") else Param(piece[..i], piece[i + 1..])
  }

  function ReadAll(pieces: seq<string>): (r: seq<Param>)
    ensures |r| == |pieces|
    ensures forall i :: 0 <= i < |pieces| ==> r[i] == ReadParam(pieces[i])
  {
    if |pieces| == 0 then [] else [ReadParam(pieces[0])] + ReadAll(pieces[1..])
  }

  /** The parameters of a query string, split on '&' and then at the first '='. It does no
      percent-decoding, no '+' decoding and no cutting at '#', so it is what a server reads only
      for strings free of '%', '+' and '#'. */
  function Read(s: string): seq<Param> {
    ReadAll(Split(s, '&'))
  }

  /** A parameter that survives the round trip: no '&' anywhere and no '=' in the key. */
  predicate Plain(p: Param) {
    '&' !in p.key && '&' !in p.value && '=' !in p.key
  }

  lemma IndexOfAbsent(s: string, c: char)
    requires c !in s
    ensures IndexOf(s, c) == |s|
  {
  }

  lemma {:induction false} IndexOfAfter(a: string, c: char, b: string)
    requires c !in a
    ensures IndexOf(a + [c] + b, c) == |a|
  {
    if |a| > 0 {
      assert (a + [c] + b)[1..] == a[1..] + [c] + b;
      IndexOfAfter(a[1..], c, b);
    }
  }

  lemma ReadEncoded(p: Param)
    requires Plain(p)
    ensures ReadParam(Encode(p)) == p
  {
    var s := Encode(p);
    IndexOfAfter(p.key, '=', p.value);
    assert s[..|p.key|] == p.key;
    assert s[|p.key| + 1..] == p.value;
  }

  lemma {:induction false} SplitJoin(pieces: seq<string>, c: char)
    requires |pieces| > 0
    requires forall i :: 0 <= i < |pieces| ==> c !in pieces[i]
    ensures Split(Join(pieces, c), c) == pieces
  {
    if |pieces| == 1 {
      IndexOfAbsent(pieces[0], c);
    } else {
      var rest := Join(pieces[1..], c);
      var s := pieces[0] + [c] + rest;
      IndexOfAfter(pieces[0], c, rest);
      assert s[..|pieces[0]|] == pieces[0];
      assert s[|pieces[0]| + 1..] == rest;
      SplitJoin(pieces[1..], c);
    }
  }

  /** Round trip: splitting gives back exactly the parameters written, in order. */
  lemma ReadWrite(ps: seq<Param>)
    requires |ps| > 0
    requires forall i :: 0 <= i < |ps| ==> Plain(ps[i])
    ensures Read(Write(ps)) == ps
  {
    var pieces := EncodeAll(ps);
    forall i | 0 <= i < |pieces|
      ensures '&' !in pieces[i]
    {
      assert pieces[i] == ps[i].key + "=" + ps[i].value;
    }
    SplitJoin(pieces, '&');
    forall i | 0 <= i < |ps|
      ensures ReadParam(pieces[i]) == ps[i]
    {
      ReadEncoded(ps[i]);
    }
  }
}
