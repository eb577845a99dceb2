/**
  The multi-select answer: the reply is cut at commas, each piece stripped of
  surrounding whitespace, and the pieces that are not options are dropped.
 */
module Selection {
  import opened Text

  /** `[opt.strip() for opt in response.split(',')]` */
  function TrimmedPieces(response: string): (r: seq<string>)
    ensures |r| == |Split(response, ',')|
    ensures forall i :: 0 <= i < |r| ==> Trimmed(r[i])
  {
    var pieces := Split(response, ',');
    seq(|pieces|, i requires 0 <= i < |pieces| => Strip(pieces[i]))
  }

  /** `[opt for opt in pieces if opt in options]` */
  function KeepOffered(pieces: seq<string>, options: seq<string>): (r: seq<string>)
    ensures |r| <= |pieces|
    ensures forall i :: 0 <= i < |r| ==> r[i] in options && r[i] in pieces
  {
    if |pieces| == 0 then []
    else
      var rest := KeepOffered(pieces[1..], options);
      assert forall i :: 0 <= i < |rest| ==> rest[i] in pieces;
      if pieces[0] in options then [pieces[0]] + rest else rest
  }

  /** Every option occurs as often in the result as among the pieces; nothing else occurs. */
  lemma {:induction false} KeepOfferedCounts(pieces: seq<string>, options: seq<string>)
    ensures forall x :: x in options ==> multiset(KeepOffered(pieces, options))[x] == multiset(pieces)[x]
    ensures forall x :: x !in options ==> multiset(KeepOffered(pieces, options))[x] == 0
    decreases |pieces|
  {
    if |pieces| > 0 {
      KeepOfferedCounts(pieces[1..], options);
      assert pieces == [pieces[0]] + pieces[1..];
    }
  }

  /** Filtering keeps the input order: it distributes over concatenation. */
  lemma {:induction false} KeepOfferedAppend(a: seq<string>, b: seq<string>, options: seq<string>)
    ensures KeepOffered(a + b, options) == KeepOffered(a, options) + KeepOffered(b, options)
    decreases |a|
  {
    if a == [] {
      assert a + b == b;
    } else {
      var ab := a + b;
      var head := if a[0] in options then [a[0]] else [];
      assert ab[0] == a[0] && ab[1..] == a[1..] + b;
      KeepOfferedAppend(a[1..], b, options);
      assert KeepOffered(ab, options) == head + KeepOffered(a[1..] + b, options);
      assert KeepOffered(a, options) == head + KeepOffered(a[1..], options);
    }
  }

  lemma KeptAreTrimmed(pieces: seq<string>, options: seq<string>)
    requires forall i :: 0 <= i < |pieces| ==> Trimmed(pieces[i])
    ensures forall i :: 0 <= i < |KeepOffered(pieces, options)| ==> Trimmed(KeepOffered(pieces, options)[i])
  {
  }

  /** The answer recorded for a multi-select subsection. */
  function SelectedOptions(response: string, options: seq<string>): (r: seq<string>)
    ensures |r| <= |Split(response, ',')|
    ensures forall i :: 0 <= i < |r| ==> r[i] in options && Trimmed(r[i])
    ensures forall x :: x in options ==> multiset(r)[x] == multiset(TrimmedPieces(response))[x]
  {
    var pieces := TrimmedPieces(response);
    KeptAreTrimmed(pieces, options);
    KeepOfferedCounts(pieces, options);
    KeepOffered(pieces, options)
  }

  /**
    A reply assembled from comma-separated, whitespace-padded pieces records
    exactly the pieces that are options, in reply order, with repeats.
   */
  lemma {:induction false} SelectedFromPieces(pieces: seq<string>, pads: seq<(string, string)>, options: seq<string>)
    requires |pieces| >= 1 && |pads| == |pieces|
    requires forall i :: 0 <= i < |pieces| ==> ',' !in pieces[i] && Trimmed(pieces[i])
    requires forall i :: 0 <= i < |pads| ==> AllSpace(pads[i].0) && AllSpace(pads[i].1) && ',' !in pads[i].0 && ',' !in pads[i].1
    ensures SelectedOptions(Join(Padded(pieces, pads), ","), options) == KeepOffered(pieces, options)
  {
    var padded := Padded(pieces, pads);
    SplitJoin(padded, ',');
    assert Split(Join(padded, ","), ',') == padded;
    forall i | 0 <= i < |pieces|
      ensures Strip(padded[i]) == pieces[i]
    {
      StripPadding(pads[i].0, pieces[i], pads[i].1);
    }
    assert TrimmedPieces(Join(padded, ",")) == pieces;
  }

  /** Each piece with its own whitespace before and after it. */
  function Padded(pieces: seq<string>, pads: seq<(string, string)>): seq<string>
    requires |pads| == |pieces|
  {
    seq(|pieces|, i requires 0 <= i < |pieces| => pads[i].0 + pieces[i] + pads[i].1)
  }
}
