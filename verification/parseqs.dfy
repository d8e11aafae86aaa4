/**
 * Query-string rendering and parsing (parseqs/ParseQS.kt).
 *
 * The component encoder and decoder (`Global.encodeURIComponent` and
 * `Global.decodeURIComponent`) are parameters. A query map is given as its
 * entries in iteration order; `Decode` builds a map, since only lookups of
 * its result matter.
 */
module ParseQS {
  import opened Common

  /** `String.split(c)`: the pieces between occurrences of `c`; "" splits into [""]. */
  function Split(s: string, c: char): (parts: seq<string>)
    ensures |parts| >= 1
    ensures forall i :: 0 <= i < |parts| ==> c !in parts[i]
  {
    if |s| == 0 then [""]
    else
      var rest := Split(s[1..], c);
      if s[0] == c then [""] + rest
      else [[s[0]] + rest[0]] + rest[1..]
  }

  /** The pieces joined with single separators `c`, none leading or trailing. */
  function Join(parts: seq<string>, c: char): string
    requires |parts| >= 1
  {
    if |parts| == 1 then parts[0] else parts[0] + [c] + Join(parts[1..], c)
  }

  /** A string without `c` splits into itself. */
  lemma {:induction false} SplitNoSeparator(s: string, c: char)
    requires c !in s
    ensures Split(s, c) == [s]
  {
    if |s| > 0 {
      SplitNoSeparator(s[1..], c);
      assert s == [s[0]] + s[1..];
    }
  }

  /** Splitting stops at the first separator. */
  lemma {:induction false} SplitAtFirst(a: string, c: char, b: string)
    requires c !in a
    ensures Split(a + [c] + b, c) == [a] + Split(b, c)
  {
    if |a| == 0 {
      assert a + [c] + b == [c] + b;
      assert ([c] + b)[1..] == b;
    } else {
      assert (a + [c] + b)[1..] == a[1..] + [c] + b;
      SplitAtFirst(a[1..], c, b);
      assert [a[0]] + a[1..] == a;
    }
  }

  /** Splitting inverts joining when no piece contains the separator. */
  lemma {:induction false} SplitJoin(parts: seq<string>, c: char)
    requires |parts| >= 1
    requires forall i :: 0 <= i < |parts| ==> c !in parts[i]
    ensures Split(Join(parts, c), c) == parts
  {
    if |parts| == 1 {
      SplitNoSeparator(parts[0], c);
    } else {
      SplitJoin(parts[1..], c);
      SplitAtFirst(parts[0], c, Join(parts[1..], c));
      assert parts == [parts[0]] + parts[1..];
    }
  }

  /** `enc(k)=enc(v)`: the rendering of one entry. */
  function Segment(entry: (string, string), enc: string -> string): string
  {
    enc(entry.0) + "=" + enc(entry.1)
  }

  function Segments(es: Entries<string, string>, enc: string -> string): (r: seq<string>)
    ensures |r| == |es|
    ensures forall i :: 0 <= i < |es| ==> r[i] == Segment(es[i], enc)
  {
    if |es| == 0 then [] else [Segment(es[0], enc)] + Segments(es[1..], enc)
  }

  /** The builder loop of `encode`: a `&` goes before a segment unless the builder is still empty. */
  function EncodeFrom(str: string, es: Entries<string, string>, enc: string -> string): string
    decreases |es|
  {
    if |es| == 0 then str
    else EncodeFrom((if |str| > 0 then str + "&" else str) + Segment(es[0], enc), es[1..], enc)
  }

  /**
   * `encode(obj)`: "" for no entries, otherwise the entries' `enc(k)=enc(v)`
   * renderings, in order, joined by single `&`.
   */
  function Encode(es: Entries<string, string>, enc: string -> string): (r: string)
    ensures |es| == 0 ==> r == ""
    ensures |es| > 0 ==> r == Join(Segments(es, enc), '&')
  {
    if |es| > 0 then
      var seg := Segment(es[0], enc);
      assert "" + seg == seg;
      EncodeFromAppend(seg, es[1..], enc);
      assert Segments(es, enc) == [seg] + Segments(es[1..], enc);
      EncodeFrom("", es, enc)
    else EncodeFrom("", es, enc)
  }

  /** The encoding is empty exactly when there are no entries. */
  lemma EncodeNonEmpty(es: Entries<string, string>, enc: string -> string)
    ensures |es| > 0 <==> |Encode(es, enc)| > 0
  {
    if |es| > 0 {
      JoinLength(Segments(es, enc), '&');
    }
  }

  lemma {:induction false} JoinLength(parts: seq<string>, c: char)
    requires |parts| >= 1
    ensures |Join(parts, c)| >= |parts[0]|
  {
  }

  /** Continuing a non-empty builder appends `&` and the remaining segments joined by `&`. */
  lemma {:induction false} EncodeFromAppend(str: string, es: Entries<string, string>, enc: string -> string)
    requires |str| > 0
    ensures |es| == 0 ==> EncodeFrom(str, es, enc) == str
    ensures |es| > 0 ==> EncodeFrom(str, es, enc) == str + "&" + Join(Segments(es, enc), '&')
    decreases |es|
  {
    if |es| > 0 {
      var seg := Segment(es[0], enc);
      var rest := Segments(es[1..], enc);
      assert Segments(es, enc) == [seg] + rest;
      EncodeFromAppend(str + "&" + seg, es[1..], enc);
      if |es| > 1 {
        assert ([seg] + rest)[1..] == rest;
      }
    }
  }

  /**
   * `decode(qs)`: each `&`-piece split on `=`; a piece that is not exactly
   * `key=value` maps its key to "". Every piece's key is in the result, and
   * each key holds the value of the last piece with that key.
   */
  function Decode(qs: string, dec: string -> string): (m: map<string, string>)
    ensures var pieces := Split(qs, '&');
            && (forall i :: 0 <= i < |pieces| ==> DecodePiece(pieces[i], dec).0 in m)
            && (forall k :: k in m ==> LastPiece(pieces, dec, k, m[k]))
  {
    DecodePieces(Split(qs, '&'), dec)
  }

  function DecodePiece(kv: string, dec: string -> string): (string, string)
  {
    var pair := Split(kv, '=');
    (dec(pair[0]), if |pair| == 2 then dec(pair[1]) else "")
  }

  /** Some piece decodes to key `k` and value `v`, and no later piece decodes to key `k`. */
  predicate LastPiece(pieces: seq<string>, dec: string -> string, k: string, v: string)
  {
    exists i :: 0 <= i < |pieces| && DecodePiece(pieces[i], dec) == (k, v)
                && forall j :: i < j < |pieces| ==> DecodePiece(pieces[j], dec).0 != k
  }

  function DecodePieces(pieces: seq<string>, dec: string -> string): (m: map<string, string>)
    ensures forall i :: 0 <= i < |pieces| ==> DecodePiece(pieces[i], dec).0 in m
    ensures forall k :: k in m ==> LastPiece(pieces, dec, k, m[k])
    decreases |pieces|
  {
    if |pieces| == 0 then map[]
    else
      var n := |pieces| - 1;
      var last := DecodePiece(pieces[n], dec);
      var prev := DecodePieces(pieces[..n], dec);
      DecodeStep(pieces, dec, prev);
      prev[last.0 := last.1]
  }

  /** Adding the last piece's entry to the decoding of the others keeps "every key, last value". */
  lemma DecodeStep(pieces: seq<string>, dec: string -> string, prev: map<string, string>)
    requires |pieces| > 0
    requires var front := pieces[..|pieces| - 1];
             && (forall i :: 0 <= i < |front| ==> DecodePiece(front[i], dec).0 in prev)
             && (forall k :: k in prev ==> LastPiece(front, dec, k, prev[k]))
    ensures var last := DecodePiece(pieces[|pieces| - 1], dec);
            var m := prev[last.0 := last.1];
            && (forall i :: 0 <= i < |pieces| ==> DecodePiece(pieces[i], dec).0 in m)
            && (forall k :: k in m ==> LastPiece(pieces, dec, k, m[k]))
  {
    var n := |pieces| - 1;
    var front := pieces[..n];
    var last := DecodePiece(pieces[n], dec);
    var m := prev[last.0 := last.1];
    forall i | 0 <= i < |pieces| ensures DecodePiece(pieces[i], dec).0 in m {
      if i < n {
        assert front[i] == pieces[i];
      }
    }
    assert LastPiece(pieces, dec, last.0, m[last.0]) by {
      assert DecodePiece(pieces[n], dec) == (last.0, m[last.0]);
    }
    forall k | k in prev && k != last.0 ensures LastPiece(pieces, dec, k, m[k]) {
      LastPieceExtend(pieces, dec, k, prev[k]);
    }
  }

  /** A last piece for `k` among all but the final piece stays the last one when the final piece has another key. */
  lemma LastPieceExtend(pieces: seq<string>, dec: string -> string, k: string, v: string)
    requires |pieces| > 0 && DecodePiece(pieces[|pieces| - 1], dec).0 != k
    requires LastPiece(pieces[..|pieces| - 1], dec, k, v)
    ensures LastPiece(pieces, dec, k, v)
  {
    var n := |pieces| - 1;
    var front := pieces[..n];
    var i :| 0 <= i < n && DecodePiece(front[i], dec) == (k, v)
             && forall j :: i < j < n ==> DecodePiece(front[j], dec).0 != k;
    assert DecodePiece(pieces[i], dec) == (k, v);
    forall j | i < j < |pieces| ensures DecodePiece(pieces[j], dec).0 != k {
      if j < n {
        assert front[j] == pieces[j];
      }
    }
  }

  /** The map a list of entries denotes when later entries win. */
  function ToMap(es: Entries<string, string>): map<string, string>
    decreases |es|
  {
    if |es| == 0 then map[] else ToMap(es[..|es| - 1])[es[|es| - 1].0 := es[|es| - 1].1]
  }

  /** `decode("")` is not empty: it holds the single entry dec("") to "". */
  lemma DecodeEmpty(dec: string -> string)
    ensures Decode("", dec) == map[dec("") := ""]
  {
    assert Split("", '&') == [""];
    assert DecodePiece("", dec) == (dec(""), "");
    assert Split("", '&')[..0] == [];
  }

  /** So decoding the encoding of the empty map is not the empty map. */
  lemma EncodeEmptyNotInverted(enc: string -> string, dec: string -> string)
    ensures Decode(Encode([], enc), dec) != ToMap([])
  {
    DecodeEmpty(dec);
    assert dec("") in Decode("", dec);
  }

  ghost predicate SafeEncoder(enc: string -> string, dec: string -> string)
  {
    forall s :: '&' !in enc(s) && '=' !in enc(s) && dec(enc(s)) == s
  }

  lemma DecodeSegment(entry: (string, string), enc: string -> string, dec: string -> string)
    requires SafeEncoder(enc, dec)
    ensures DecodePiece(Segment(entry, enc), dec) == entry
  {
    SplitJoin([enc(entry.0), enc(entry.1)], '=');
    assert Join([enc(entry.0), enc(entry.1)], '=') == Segment(entry, enc);
  }

  lemma {:induction false} DecodeSegments(es: Entries<string, string>, enc: string -> string, dec: string -> string)
    requires SafeEncoder(enc, dec)
    ensures DecodePieces(Segments(es, enc), dec) == ToMap(es)
    decreases |es|
  {
    if |es| > 0 {
      var n := |es| - 1;
      var segs := Segments(es, enc);
      assert segs[..n] == Segments(es[..n], enc);
      DecodeSegments(es[..n], enc, dec);
      DecodeSegment(es[n], enc, dec);
    }
  }

  /**
   * For a non-empty query whose encoder never produces `&` or `=` and is
   * inverted by the decoder, decoding the encoding gives back the map.
   */
  lemma DecodeEncode(es: Entries<string, string>, enc: string -> string, dec: string -> string)
    requires |es| > 0
    requires SafeEncoder(enc, dec)
    ensures Decode(Encode(es, enc), dec) == ToMap(es)
  {
    var segs := Segments(es, enc);
    forall i | 0 <= i < |segs| ensures '&' !in segs[i] {
      assert segs[i] == enc(es[i].0) + "=" + enc(es[i].1);
    }
    SplitJoin(segs, '&');
    DecodeSegments(es, enc, dec);
  }
}
