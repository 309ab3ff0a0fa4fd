/** Python's `str.split(',')` and `",".join(...)`, the encoding the
    collections variant uses for `specialties` and `image_urls`. */
module CommaList {

  /** `s.split(',')`: the pieces between commas, in order, untrimmed,
      empty pieces kept. There is always at least one piece. */
  function Split(s: string): (r: seq<string>)
    ensures |r| >= 1
  {
    if s == [] then [""]
    else if s[0] == ',' then [""] + Split(s[1..])
    else
      var t := Split(s[1..]);
      [[s[0]] + t[0]] + t[1..]
  }

  /** No piece contains the separator. */
  lemma {:induction false} SplitPiecesCommaFree(s: string)
    ensures forall i :: 0 <= i < |Split(s)| ==> ',' !in Split(s)[i]
  {
    if s != [] {
      SplitPiecesCommaFree(s[1..]);
      if s[0] != ',' {
        var t := Split(s[1..]);
        assert ',' !in t[0];
        assert ',' !in [s[0]] + t[0];
      }
    }
  }

  /** `",".join(pieces)`. */
  function Join(pieces: seq<string>): string {
    if pieces == [] then ""
    else if |pieces| == 1 then pieces[0]
    else pieces[0] + "," + Join(pieces[1..])
  }

  /** Joining the pieces gives back the original text. */
  lemma {:induction false} JoinSplit(s: string)
    ensures Join(Split(s)) == s
  {
    if s == [] {
    } else if s[0] == ',' {
      var t := Split(s[1..]);
      JoinSplit(s[1..]);
      assert ([""] + t)[1..] == t;
      assert s == [','] + s[1..];
    } else {
      var t := Split(s[1..]);
      JoinSplit(s[1..]);
      var r := [[s[0]] + t[0]] + t[1..];
      assert s == [s[0]] + s[1..];
      if |t| == 1 {
        assert Join(r) == [s[0]] + t[0];
      } else {
        assert r[1..] == t[1..];
        assert Join(t) == t[0] + "," + Join(t[1..]);
        assert Join(r) == [s[0]] + t[0] + "," + Join(t[1..]);
      }
    }
  }

  /** A comma-free prefix followed by a comma splits off as one piece. */
  lemma {:induction false} SplitAfterPiece(p: string, w: string)
    requires ',' !in p
    ensures Split(p + "," + w) == [p] + Split(w)
  {
    if p == [] {
      assert p + "," + w == [','] + w;
      assert ([','] + w)[1..] == w;
    } else {
      var s := p + "," + w;
      assert s[0] == p[0] && s[1..] == p[1..] + "," + w;
      SplitAfterPiece(p[1..], w);
      assert [p[0]] + p[1..] == p;
    }
  }

  /** A comma-free text is a single piece. */
  lemma {:induction false} SplitSingle(p: string)
    requires ',' !in p
    ensures Split(p) == [p]
  {
    if p != [] {
      SplitSingle(p[1..]);
      assert [p[0]] + p[1..] == p;
    }
  }

  /** Splitting a join of comma-free pieces gives back the pieces. */
  lemma {:induction false} SplitJoin(pieces: seq<string>)
    requires |pieces| >= 1
    requires forall i :: 0 <= i < |pieces| ==> ',' !in pieces[i]
    ensures Split(Join(pieces)) == pieces
  {
    if |pieces| == 1 {
      SplitSingle(pieces[0]);
    } else {
      SplitJoin(pieces[1..]);
      SplitAfterPiece(pieces[0], Join(pieces[1..]));
      assert [pieces[0]] + pieces[1..] == pieces;
    }
  }
}
