// Reading an expanded expression back: split at its separators, strip the names, percent-decode.
module UriReadBack {
  import opened Wrappers
  import opened PercentEncoding
  import opened UriTemplate

  // The character between the values of an expression.
  function SeparatorOf(operator: Option<char>): (sep: char)
    ensures Separator(sep)
  {
    match operator
    case Some('.') => '.'
    case Some('/') => '/'
    case Some(';') => ';'
    case Some('?') => '&'
    case Some('&') => '&'
    case _ => ','
  }

  predicate HasNames(operator: Option<char>) {
    operator == Some(';') || operator == Some('?') || operator == Some('&')
  }

  predicate HasLead(operator: Option<char>) {
    operator.Some? && operator != Some('+')
  }

  function AfterEquals(piece: string): string {
    if piece == [] then ""
    else if piece[0] == '=' then piece[1..]
    else AfterEquals(piece[1..])
  }

  function StripNames(pieces: seq<string>): seq<string> {
    seq(|pieces|, k requires 0 <= k < |pieces| => AfterEquals(pieces[k]))
  }

  function DecodeAll(pieces: seq<string>): Option<seq<string>> {
    if pieces == [] then Some([])
    else
      match (Decode(pieces[0]), DecodeAll(pieces[1..]))
      case (Some(value), Some(values)) => Some([value] + values)
      case _ => None
  }

  // The reader: it knows the operator and the text, not the values.
  function ReadBack(operator: Option<char>, text: string): Option<seq<string>> {
    var body := if HasLead(operator) && text != [] then text[1..] else text;
    var pieces := Split(body, SeparatorOf(operator));
    DecodeAll(if HasNames(operator) then StripNames(pieces) else pieces)
  }

  // ---- Splitting what was joined ----

  lemma {:induction false} SplitConcat(a: string, tail: string, b: string, sep: char)
    requires tail == [sep] + b
    ensures Split(a + tail, sep) == Split(a, sep) + Split(b, sep)
  {
    if a == [] {
      assert a + tail == tail && tail[1..] == b;
    } else {
      var rest, more := Split(a[1..], sep), Split(b, sep);
      SplitConcat(a[1..], tail, b, sep);
      assert (a + tail)[0] == a[0] && (a + tail)[1..] == a[1..] + tail;
      if a[0] == sep {
        assert [""] + (rest + more) == ([""] + rest) + more;
      } else {
        PrependToFirst(a[0], rest, more);
      }
    }
  }

  lemma PrependToFirst(c: char, rest: seq<string>, more: seq<string>)
    requires rest != []
    ensures [[c] + (rest + more)[0]] + (rest + more)[1..] == ([[c] + rest[0]] + rest[1..]) + more
  {
  }

  lemma {:induction false} SplitSize(s: string, sep: char)
    ensures |Split(s, sep)| > 1 <==> sep in s
    ensures sep !in s ==> Split(s, sep) == [s]
  {
    if s != [] {
      SplitSize(s[1..], sep);
      assert s == [s[0]] + s[1..];
    }
  }

  lemma SplitOfJoin(pieces: seq<string>, sep: char)
    requires |pieces| > 1
    ensures Split(Join(pieces, sep), sep) == Split(pieces[0], sep) + Split(Join(pieces[1..], sep), sep)
  {
    var rest := Join(pieces[1..], sep);
    SplitConcat(pieces[0], [sep] + rest, rest, sep);
    assert Join(pieces, sep) == pieces[0] + ([sep] + rest);
  }

  lemma {:induction false} SplitUndoesJoin(pieces: seq<string>, sep: char)
    requires pieces != []
    ensures |Split(Join(pieces, sep), sep)| >= |pieces|
    ensures (forall k :: 0 <= k < |pieces| ==> sep !in pieces[k]) ==> Split(Join(pieces, sep), sep) == pieces
    ensures (exists k :: 0 <= k < |pieces| && sep in pieces[k]) ==> |Split(Join(pieces, sep), sep)| > |pieces|
  {
    SplitSize(pieces[0], sep);
    if |pieces| > 1 {
      var rest := pieces[1..];
      SplitUndoesJoin(rest, sep);
      SplitOfJoin(pieces, sep);
      if exists k :: 0 <= k < |pieces| && sep in pieces[k] {
        var k :| 0 <= k < |pieces| && sep in pieces[k];
        if k > 0 {
          assert rest[k - 1] == pieces[k];
        }
      }
    }
  }

  lemma {:induction false} PrefixedIsJoined(pieces: seq<string>, sep: char)
    requires pieces != []
    ensures Prefixed(pieces, sep) == [sep] + Join(pieces, sep)
  {
    if |pieces| > 1 {
      PrefixedIsJoined(pieces[1..], sep);
    } else {
      assert Prefixed(pieces[1..], sep) == "";
    }
  }

  // ---- Decoding the pieces ----

  lemma {:induction false} AfterEqualsOfNamed(name: string, value: string)
    requires '=' !in name
    ensures AfterEquals(name + "=" + value) == value
  {
    var piece := name + "=" + value;
    if name != [] {
      AfterEqualsOfNamed(name[1..], value);
      assert piece[1..] == name[1..] + "=" + value;
      assert name[0] in name;
    } else {
      assert piece == "=" + value;
    }
  }

  lemma StripNamesOfNamed(names: seq<string>, pieces: seq<string>)
    requires |names| == |pieces|
    requires forall k :: 0 <= k < |names| ==> '=' !in names[k]
    ensures StripNames(Named(names, pieces)) == pieces
  {
    forall k | 0 <= k < |names|
      ensures AfterEquals(names[k] + "=" + pieces[k]) == pieces[k]
    {
      AfterEqualsOfNamed(names[k], pieces[k]);
    }
  }

  lemma {:induction false} DecodeAllSize(pieces: seq<string>)
    ensures DecodeAll(pieces).Some? ==> |DecodeAll(pieces).value| == |pieces|
  {
    if pieces != [] {
      DecodeAllSize(pieces[1..]);
    }
  }

  lemma DecodeEncoded(value: string, reserved: bool)
    ensures Decode(if reserved then EncodeReserved(value) else Encode(value)) == Some(value)
  {
    DecodeUndoesEncode(value);
    DecodeUndoesEncodeReserved(value);
  }

  lemma {:induction false} DecodeAllUndoesEncodeAll(values: seq<string>, reserved: bool)
    ensures DecodeAll(EncodeAll(values, reserved)) == Some(values)
  {
    if values != [] {
      DecodeAllUndoesEncodeAll(values[1..], reserved);
      var encoded := EncodeAll(values, reserved);
      DecodeEncoded(values[0], reserved);
      assert encoded[1..] == EncodeAll(values[1..], reserved);
      assert values == [values[0]] + values[1..];
    }
  }

  // ---- The result ----

  // The pieces that the expansion puts between its separators.
  function Pieces(operator: Option<char>, names: seq<string>, encoded: seq<string>): (pieces: seq<string>)
    requires |names| == |encoded|
    ensures |pieces| == |encoded|
  {
    if HasNames(operator) then Named(names, encoded) else encoded
  }

  lemma LeadComesOff(lead: char, body: string)
    ensures ([lead] + body)[1..] == body
  {
  }

  lemma AssembledIsJoined(operator: Option<char>, names: seq<string>, encoded: seq<string>)
    requires |names| == |encoded| > 0
    requires operator.Some? ==> IsOperator(operator.value)
    ensures var joined := Join(Pieces(operator, names, encoded), SeparatorOf(operator));
      Assemble(operator, names, encoded) == if HasLead(operator) then [operator.value] + joined else joined
  {
    PrefixedIsJoined(Pieces(operator, names, encoded), SeparatorOf(operator));
  }

  // A value breaks the expression apart when it carries a separator that its encoding leaves in place.
  predicate Splits(operator: Option<char>, value: string) {
    match operator
    case Some('+') => ',' in value
    case Some('#') => ',' in value
    case Some('.') => '.' in value
    case _ => false
  }

  lemma ReservedMeansComma(operator: Option<char>, value: string)
    requires Reserved(operator)
    ensures SeparatorOf(operator) == ','
    ensures Splits(operator, value) <==> ',' in value
  {
  }

  lemma PlainSplits(operator: Option<char>, value: string)
    requires !Reserved(operator)
    ensures SeparatorOf(operator) in Encode(value) <==> Splits(operator, value)
  {
    UnreservedSeparator(operator);
    SeparatorInEncoded(value, SeparatorOf(operator));
  }

  lemma UnreservedSeparator(operator: Option<char>)
    ensures Unreserved(SeparatorOf(operator)) <==> operator == Some('.')
  {
  }

  lemma PieceSplits(operator: Option<char>, name: string, encoded: string)
    requires forall c :: c in name ==> WordChar(c)
    ensures SeparatorOf(operator) in name + "=" + encoded <==> SeparatorOf(operator) in encoded
  {
    var sep := SeparatorOf(operator);
    assert sep in name + "=" + encoded <==> sep in name || sep == '=' || sep in encoded;
  }

  // An expanded expression reads back to its values exactly when no value carries an unescaped separator.
  // For the simple, `/`, `;`, `?` and `&` expressions no value does.
  lemma ExpansionReadsBack(operator: Option<char>, names: seq<string>, values: seq<string>)
    requires |names| == |values| > 0
    requires operator.Some? ==> IsOperator(operator.value)
    requires forall k :: 0 <= k < |names| ==> forall c :: c in names[k] ==> WordChar(c)
    ensures ReadBack(operator, ExpandExpression(operator, names, values)) == Some(values)
      <==> forall k :: 0 <= k < |values| ==> !Splits(operator, values[k])
  {
    var sep := SeparatorOf(operator);
    var encoded := EncodeAll(values, Reserved(operator));
    var pieces := Pieces(operator, names, encoded);
    AssembledIsJoined(operator, names, encoded);
    forall k | 0 <= k < |values|
      ensures sep in pieces[k] <==> Splits(operator, values[k])
    {
      if Reserved(operator) {
        ReservedMeansComma(operator, values[k]);
        CommaInEncodedReserved(values[k]);
      } else {
        PlainSplits(operator, values[k]);
      }
      PieceSplits(operator, names[k], encoded[k]);
    }
    if HasLead(operator) {
      LeadComesOff(operator.value, Join(pieces, sep));
    }
    SplitUndoesJoin(pieces, sep);
    var split := Split(Join(pieces, sep), sep);
    DecodeAllSize(if HasNames(operator) then StripNames(split) else split);
    if forall k :: 0 <= k < |values| ==> !Splits(operator, values[k]) {
      StripNamesOfNamed(names, encoded);
      DecodeAllUndoesEncodeAll(values, Reserved(operator));
    }
  }

  // Two different argument lists never expand to the same text under the five unambiguous operators.
  lemma ExpansionIsInjective(operator: Option<char>, names: seq<string>, a: seq<string>, b: seq<string>)
    requires |names| == |a| == |b| > 0
    requires operator.Some? ==> operator.value in {'/', ';', '?', '&'}
    requires forall k :: 0 <= k < |names| ==> forall c :: c in names[k] ==> WordChar(c)
    requires ExpandExpression(operator, names, a) == ExpandExpression(operator, names, b)
    ensures a == b
  {
    ExpansionReadsBack(operator, names, a);
    ExpansionReadsBack(operator, names, b);
  }

  // The other operators do confuse values: these two argument lists share one expansion.
  lemma LabelExpansionIsAmbiguous()
    ensures ExpandExpression(Some('.'), ["a", "b"], ["x.y", "z"]) == ExpandExpression(Some('.'), ["a", "b"], ["x", "y.z"])
  {
    var first, second := EncodeAll(["x.y", "z"], false), EncodeAll(["x", "y.z"], false);
    EncodeUnreserved("x.y");
    EncodeUnreserved("z");
    EncodeUnreserved("x");
    EncodeUnreserved("y.z");
    assert first == ["x.y", "z"] && second == ["x", "y.z"];
    PrefixedIsJoined(first, '.');
    PrefixedIsJoined(second, '.');
    assert Join(first[1..], '.') == "z" && Join(second[1..], '.') == "y.z";
    assert Join(first, '.') == "x.y.z" == Join(second, '.');
  }

  lemma {:induction false} EncodeUnreserved(s: string)
    requires forall k :: 0 <= k < |s| ==> Unreserved(s[k])
    ensures Encode(s) == s
  {
    if s != [] {
      EncodeUnreserved(s[1..]);
      assert s == [s[0]] + s[1..];
    }
  }
}
