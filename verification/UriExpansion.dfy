// What a whole URI template expands to: its literal text as it stands, each expression in its place.
module UriExpansion {
  import opened Wrappers
  import opened Seqs
  import opened Json
  import opened PercentEncoding
  import opened UriTemplate
  import opened UriReadBack

  // ---- Position does not matter ----

  lemma {:induction false} CloseAfterShift(before: string, t: string, i: nat)
    requires i <= |t|
    ensures CloseAfter(before + t, |before| + i) == |before| + CloseAfter(t, i)
    decreases |t| - i
  {
    if i < |t| && t[i] != '}' {
      CloseAfterShift(before, t, i + 1);
    }
  }

  function Moved(m: Option<Expression>, offset: nat): Option<Expression> {
    match m
    case None => None
    case Some(e) => Some(e.(end := e.end + offset))
  }

  lemma RunnerMatchShift(before: string, t: string, i: nat)
    requires i < |t|
    ensures RunnerMatch(before + t, |before| + i) == Moved(RunnerMatch(t, i), |before|)
  {
    var all, n := before + t, |before|;
    CloseAfterShift(before, t, i + 1);
    var close := CloseAfter(t, i + 1);
    assert all[n + i] == t[i];
    if i + 1 < close {
      assert all[n + i + 1..n + close] == t[i + 1..close];
      assert all[n + i + 1] == t[i + 1];
    }
    if i + 2 < close {
      assert all[n + i + 2..n + close] == t[i + 2..close];
    }
  }

  // The text expands from `i` on as it does behind other text.
  predicate Shifts(before: string, t: string, i: nat, args: Record)
    requires i <= |t|
  {
    ExpandFrom(before + t, |before| + i, args) == ExpandFrom(t, i, args)
  }

  lemma ShiftOverLiteral(before: string, t: string, i: nat, args: Record)
    requires i < |t| && RunnerMatch(t, i).None? && Shifts(before, t, i + 1, args)
    ensures Shifts(before, t, i, args)
  {
    RunnerMatchShift(before, t, i);
    assert (before + t)[|before| + i] == t[i];
  }

  // Text in front of a successful expansion.
  function After(text: string, r: Result<string, string>): Result<string, string> {
    match r
    case Ok(rest) => Ok(text + rest)
    case Err(name) => Err(name)
  }

  // What an expression makes of the expansion behind it.
  function Replaced(operator: Option<char>, raw: string, args: Record, rest: Result<string, string>): Result<string, string> {
    match Values(Names(raw), args)
    case Err(name) => Err(name)
    case Ok(values) => After(ExpandExpression(operator, Names(raw), values), rest)
  }

  // One expression at two places, with the same expansion behind it.
  lemma ExpandsAlike(t: string, i: nat, e: Expression, u: string, j: nat, end: nat, args: Record)
    requires i < |t| && RunnerMatch(t, i) == Some(e)
    requires j < |u| && RunnerMatch(u, j) == Some(e.(end := end))
    requires ExpandFrom(t, e.end, args) == ExpandFrom(u, end, args)
    ensures ExpandFrom(t, i, args) == ExpandFrom(u, j, args)
  {
  }

  lemma ShiftOverExpression(before: string, t: string, i: nat, args: Record, e: Expression)
    requires i < |t| && RunnerMatch(t, i) == Some(e) && Shifts(before, t, e.end, args)
    ensures Shifts(before, t, i, args)
  {
    RunnerMatchShift(before, t, i);
    ExpandsAlike(t, i, e, before + t, |before| + i, |before| + e.end, args);
  }

  lemma {:induction false} ExpandShift(before: string, t: string, i: nat, args: Record)
    requires i <= |t|
    ensures Shifts(before, t, i, args)
    decreases |t| - i
  {
    if i < |t| {
      var m := RunnerMatch(t, i);
      if m.None? {
        ExpandShift(before, t, i + 1, args);
        ShiftOverLiteral(before, t, i, args);
      } else {
        ExpandShift(before, t, m.value.end, args);
        ShiftOverExpression(before, t, i, args, m.value);
      }
    }
  }

  // ---- Literal text ----

  // Text in which no expression begins, whatever follows it: every `{` is closed at once.
  ghost predicate IsLiteral(text: string) {
    forall k :: 0 <= k < |text| && text[k] == '{' ==> k + 1 < |text| && text[k + 1] == '}'
  }

  lemma LiteralHasNoMatch(literal: string, rest: string, i: nat)
    requires IsLiteral(literal) && i < |literal|
    ensures RunnerMatch(literal + rest, i).None?
  {
    var t := literal + rest;
    if t[i] == '{' {
      assert t[i + 1] == '}';
    }
  }

  lemma {:induction false} LiteralFrom(literal: string, rest: string, i: nat, args: Record)
    requires IsLiteral(literal) && i <= |literal|
    ensures ExpandFrom(literal + rest, i, args) == After(literal[i..], ExpandUriTemplate(rest, args))
    decreases |literal| - i
  {
    if i == |literal| {
      ExpandShift(literal, rest, 0, args);
      var r := ExpandUriTemplate(rest, args);
      assert r.Ok? ==> literal[i..] + r.value == r.value;
    } else {
      LiteralHasNoMatch(literal, rest, i);
      LiteralFrom(literal, rest, i + 1, args);
      assert literal[i..] == [literal[i]] + literal[i + 1..];
      var r := ExpandUriTemplate(rest, args);
      assert r.Ok? ==> [literal[i]] + (literal[i + 1..] + r.value) == literal[i..] + r.value;
    }
  }

  // Literal text comes out as it is, in front of what the rest expands to.
  lemma LiteralIsKept(literal: string, rest: string, args: Record)
    requires IsLiteral(literal)
    ensures ExpandUriTemplate(literal + rest, args) == After(literal, ExpandUriTemplate(rest, args))
  {
    LiteralFrom(literal, rest, 0, args);
    assert literal[0..] == literal;
  }

  lemma UnclosedHasNoMatch(t: string, i: nat)
    requires i < |t| && '}' !in t
    ensures RunnerMatch(t, i).None?
  {
    assert forall k :: 0 <= k < |t| ==> t[k] != '}';
  }

  lemma {:induction false} UnclosedFrom(t: string, i: nat, args: Record)
    requires i <= |t| && '}' !in t
    ensures ExpandFrom(t, i, args) == Ok(t[i..])
    decreases |t| - i
  {
    if i == |t| {
      assert t[i..] == "";
    } else {
      UnclosedHasNoMatch(t, i);
      UnclosedFrom(t, i + 1, args);
      assert ExpandFrom(t, i, args) == Ok([t[i]] + t[i + 1..]);
      assert t[i..] == [t[i]] + t[i + 1..];
    }
  }

  // Literal text, and then text in which no brace closes.
  ghost predicate IsTail(text: string) {
    exists n :: 0 <= n <= |text| && TailFrom(text, n)
  }

  ghost predicate TailFrom(text: string, n: nat)
    requires n <= |text|
  {
    IsLiteral(text[..n]) && '}' !in text[n..]
  }

  // A template without expressions expands to itself.
  lemma PlainTextExpandsToItself(t: string, args: Record)
    requires IsTail(t)
    ensures ExpandUriTemplate(t, args) == Ok(t)
  {
    var n: nat :| n <= |t| && TailFrom(t, n);
    LiteralIsKept(t[..n], t[n..], args);
    UnclosedFrom(t[n..], 0, args);
    assert t[n..][0..] == t[n..];
    assert t[..n] + t[n..] == t;
  }

  // So does one without `{`.
  lemma TextWithoutBracesExpandsToItself(t: string, args: Record)
    requires '{' !in t
    ensures ExpandUriTemplate(t, args) == Ok(t)
  {
    assert t[..|t|] == t && t[|t|..] == "";
    assert TailFrom(t, |t|);
    PlainTextExpandsToItself(t, args);
  }

  // ---- Expressions ----

  // Literal text and the expression behind it.
  datatype Part = Part(literal: string, operator: Option<char>, raw: string)

  // What an expression is: text between braces, behind its operator if it has one. Alone, an operator is text.
  ghost predicate IsPart(part: Part) {
    && IsLiteral(part.literal) && part.raw != "" && '}' !in part.raw
    && match part.operator
       case Some(c) => IsOperator(c)
       case None => |part.raw| == 1 || !IsOperator(part.raw[0])
  }

  function Spelled(part: Part): string {
    "{" + (if part.operator.Some? then [part.operator.value] else "") + part.raw + "}"
  }

  lemma CloseOfSpelled(part: Part, rest: string, i: nat)
    requires IsPart(part) && 1 <= i < |Spelled(part)|
    ensures CloseAfter(Spelled(part) + rest, i) == |Spelled(part)| - 1
    decreases |Spelled(part)| - i
  {
    var t, n := Spelled(part) + rest, |Spelled(part)|;
    var lead := n - 1 - |part.raw|;
    assert t[n - 1] == '}';
    if i < n - 1 {
      assert t[i] == if i < lead then part.operator.value else part.raw[i - lead];
      assert t[i] != '}';
      CloseOfSpelled(part, rest, i + 1);
    }
  }

  lemma SpelledIsMatched(part: Part, rest: string)
    requires IsPart(part)
    ensures RunnerMatch(Spelled(part) + rest, 0) == Some(Expression(part.operator, part.raw, |Spelled(part)|))
  {
    var t, n := Spelled(part) + rest, |Spelled(part)|;
    CloseOfSpelled(part, rest, 1);
    var lead := n - 1 - |part.raw|;
    assert t[lead..n - 1] == part.raw;
    assert t[1] == if part.operator.Some? then part.operator.value else part.raw[0];
  }

  // An expression is replaced by its expansion, and the rest is expanded on its own.
  lemma ExpressionIsReplaced(part: Part, rest: string, args: Record)
    requires IsPart(part)
    ensures ExpandUriTemplate(Spelled(part) + rest, args)
      == Replaced(part.operator, part.raw, args, ExpandUriTemplate(rest, args))
  {
    SpelledIsMatched(part, rest);
    ExpandShift(Spelled(part), rest, 0, args);
  }

  // ---- Whole templates ----

  function TemplateText(parts: seq<Part>, tail: string): string {
    if parts == [] then tail else parts[0].literal + (Spelled(parts[0]) + TemplateText(parts[1..], tail))
  }

  // The literal text with every expression's expansion in its place, or the first variable without an argument.
  function FilledIn(parts: seq<Part>, tail: string, args: Record): Result<string, string> {
    if parts == [] then Ok(tail)
    else
      match Values(Names(parts[0].raw), args)
      case Err(name) => Err(name)
      case Ok(values) =>
        After(parts[0].literal + ExpandExpression(parts[0].operator, Names(parts[0].raw), values),
              FilledIn(parts[1..], tail, args))
  }

  // A template of any number of expressions expands part by part.
  lemma {:induction false} ExpandsPartByPart(parts: seq<Part>, tail: string, args: Record)
    requires (forall k :: 0 <= k < |parts| ==> IsPart(parts[k])) && IsTail(tail)
    ensures ExpandUriTemplate(TemplateText(parts, tail), args) == FilledIn(parts, tail, args)
  {
    if parts == [] {
      PlainTextExpandsToItself(tail, args);
    } else {
      var part, rest := parts[0], TemplateText(parts[1..], tail);
      ExpandsPartByPart(parts[1..], tail, args);
      LiteralIsKept(part.literal, Spelled(part) + rest, args);
      ExpressionIsReplaced(part, rest, args);
      var values := Values(Names(part.raw), args);
      if values.Ok? {
        AfterTwice(part.literal, ExpandExpression(part.operator, Names(part.raw), values.value),
                   ExpandUriTemplate(rest, args));
      }
    }
  }

  lemma AfterTwice(a: string, b: string, r: Result<string, string>)
    ensures After(a, After(b, r)) == After(a + b, r)
  {
    if r.Ok? {
      assert a + (b + r.value) == (a + b) + r.value;
    }
  }

  lemma LiteralConcat(a: string, b: string)
    requires IsLiteral(a) && IsLiteral(b)
    ensures IsLiteral(a + b)
  {
    forall k | 0 <= k < |a + b| && (a + b)[k] == '{'
      ensures k + 1 < |a + b| && (a + b)[k + 1] == '}'
    {
      if k < |a| {
        assert a[k + 1] == '}';
      } else {
        assert b[k - |a| + 1] == '}';
      }
    }
  }

  lemma LiteralThenTail(a: string, tail: string)
    requires IsLiteral(a) && IsTail(tail)
    ensures IsTail(a + tail)
  {
    var n: nat :| n <= |tail| && TailFrom(tail, n);
    LiteralConcat(a, tail[..n]);
    assert (a + tail)[..|a| + n] == a + tail[..n] && (a + tail)[|a| + n..] == tail[n..];
    assert TailFrom(a + tail, |a| + n);
  }

  function BraceAfter(t: string): (k: nat)
    ensures k <= |t| && '{' !in t[..k]
    ensures k < |t| ==> t[k] == '{'
  {
    if t == [] || t[0] == '{' then 0
    else
      var k := BraceAfter(t[1..]) + 1;
      assert t[..k] == [t[0]] + t[1..][..k - 1];
      k
  }

  // The expression at the brace at `k`, which closes at `close` and not at once.
  function PartAt(t: string, k: nat, close: nat): Part
    requires k + 1 < close < |t|
  {
    if k + 2 < close && IsOperator(t[k + 1]) then Part(t[..k], Some(t[k + 1]), t[k + 2..close])
    else Part(t[..k], None, t[k + 1..close])
  }

  lemma PartAtIsPart(t: string, k: nat, close: nat)
    requires k + 1 < close < |t| && '{' !in t[..k] && t[k] == '{' && t[close] == '}' && '}' !in t[k + 1..close]
    ensures IsPart(PartAt(t, k, close))
    ensures t[..close + 1] == PartAt(t, k, close).literal + Spelled(PartAt(t, k, close))
  {
    assert t[k + 1..close] == [t[k + 1]] + t[k + 2..close];
    assert t[..close + 1] == t[..k] + ("{" + t[k + 1..close] + "}");
  }

  lemma PartInFront(part: Part, parts: seq<Part>, tail: string)
    requires IsPart(part) && forall k :: 0 <= k < |parts| ==> IsPart(parts[k])
    ensures TemplateText([part] + parts, tail) == (part.literal + Spelled(part)) + TemplateText(parts, tail)
    ensures forall k :: 0 <= k < |[part] + parts| ==> IsPart(([part] + parts)[k])
  {
    assert ([part] + parts)[1..] == parts;
  }

  // Every template is one: parts, and a tail.
  lemma {:induction false} TemplatesHaveParts(t: string) returns (parts: seq<Part>, tail: string)
    ensures TemplateText(parts, tail) == t
    ensures (forall k :: 0 <= k < |parts| ==> IsPart(parts[k])) && IsTail(tail)
    decreases |t|
  {
    var k := BraceAfter(t);
    var close := if k < |t| then CloseAfter(t, k + 1) else |t|;
    if close == |t| {
      parts, tail := [], t;
      assert TailFrom(t, k);
    } else {
      parts, tail := TemplatesHaveParts(t[close + 1..]);
      assert t == t[..close + 1] + t[close + 1..];
      if close == k + 1 {
        assert t[..close + 1] == t[..k] + "{}";
        LiteralConcat(t[..k], "{}");
        parts, tail := Preceded(t[..close + 1], parts, tail);
      } else {
        PartAtIsPart(t, k, close);
        PartInFront(PartAt(t, k, close), parts, tail);
        parts := [PartAt(t, k, close)] + parts;
      }
    }
  }

  // More literal text in front joins the first literal text there is.
  lemma Preceded(literal: string, parts: seq<Part>, tail: string) returns (parts': seq<Part>, tail': string)
    requires IsLiteral(literal) && (forall k :: 0 <= k < |parts| ==> IsPart(parts[k])) && IsTail(tail)
    ensures TemplateText(parts', tail') == literal + TemplateText(parts, tail)
    ensures (forall k :: 0 <= k < |parts'| ==> IsPart(parts'[k])) && IsTail(tail')
  {
    if parts == [] {
      parts', tail' := parts, literal + tail;
      LiteralThenTail(literal, tail);
    } else {
      var first := parts[0].(literal := literal + parts[0].literal);
      LiteralConcat(literal, parts[0].literal);
      parts', tail' := [first] + parts[1..], tail;
      assert Spelled(first) == Spelled(parts[0]);
    }
  }

  // ---- Variable lists ----

  // One entry of a variable list: blanks, the name, and what the runner ignores behind it.
  datatype Slot = Slot(pad: string, name: string, rest: string)

  // What a name is made of.
  predicate NameChar(c: char) {
    'A' <= c <= 'Z' || 'a' <= c <= 'z' || '0' <= c <= '9' || c == '_'
  }

  predicate IsSlot(slot: Slot) {
    && (forall k :: 0 <= k < |slot.pad| ==> IsSpace(slot.pad[k]))
    && slot.name != "" && (forall k :: 0 <= k < |slot.name| ==> NameChar(slot.name[k]))
    && (slot.rest != "" ==> !NameChar(slot.rest[0])) && ',' !in slot.rest
  }

  function SlotText(slot: Slot): string {
    slot.pad + (slot.name + slot.rest)
  }

  function SlotTexts(slots: seq<Slot>): (texts: seq<string>)
    ensures |texts| == |slots|
  {
    seq(|slots|, k requires 0 <= k < |slots| => SlotText(slots[k]))
  }

  function SlotNames(slots: seq<Slot>): (names: seq<string>)
    ensures |names| == |slots|
  {
    seq(|slots|, k requires 0 <= k < |slots| => slots[k].name)
  }

  lemma {:induction false} TrimStartSkipsPad(pad: string, text: string)
    requires forall k :: 0 <= k < |pad| ==> IsSpace(pad[k])
    requires text != "" && !IsSpace(text[0])
    ensures TrimStart(pad + text) == text
  {
    if pad == [] {
      assert pad + text == text;
    } else {
      TrimStartSkipsPad(pad[1..], text);
      assert (pad + text)[1..] == pad[1..] + text;
    }
  }

  // Trimming the end leaves a name and takes part of what is behind it.
  lemma {:induction false} TrimEndKeepsName(name: string, rest: string) returns (left: string)
    requires name != "" && forall k :: 0 <= k < |name| ==> WordChar(name[k])
    ensures TrimEnd(name + rest) == name + left && left <= rest
  {
    var text := name + rest;
    if rest == [] {
      left := [];
      assert text == name && WordChar(name[|name| - 1]);
    } else if IsSpace(rest[|rest| - 1]) {
      left := TrimEndKeepsName(name, rest[..|rest| - 1]);
      assert text[..|text| - 1] == name + rest[..|rest| - 1];
    } else {
      left := rest;
    }
  }

  lemma {:induction false} WordReadsName(name: string, rest: string)
    requires (forall k :: 0 <= k < |name| ==> WordChar(name[k])) && (rest != "" ==> !WordChar(rest[0]))
    ensures Word(name + rest) == name
  {
    if name == [] {
      assert name + rest == rest;
    } else {
      WordReadsName(name[1..], rest);
      assert (name + rest)[1..] == name[1..] + rest;
    }
  }

  lemma SlotReadsBack(slot: Slot)
    requires IsSlot(slot)
    ensures Word(Trim(SlotText(slot))) == slot.name
  {
    var text := slot.name + slot.rest;
    assert WordChar(text[0]);
    TrimStartSkipsPad(slot.pad, text);
    var left := TrimEndKeepsName(slot.name, slot.rest);
    WordReadsName(slot.name, left);
  }

  lemma SlotHasNoComma(slot: Slot)
    requires IsSlot(slot)
    ensures ',' !in SlotText(slot)
  {
    assert ',' !in slot.pad && ',' !in slot.name;
  }

  lemma {:induction false} WordsOfSlots(slots: seq<Slot>)
    requires forall k :: 0 <= k < |slots| ==> IsSlot(slots[k])
    ensures Words(SlotTexts(slots)) == SlotNames(slots)
  {
    if slots != [] {
      var init, last := slots[..|slots| - 1], slots[|slots| - 1];
      WordsOfSlots(init);
      SlotReadsBack(last);
      assert SlotTexts(slots)[..|slots| - 1] == SlotTexts(init);
      assert SlotNames(slots) == SlotNames(init) + [last.name];
    }
  }

  // The names of an expression are read off its comma-separated list, whatever blanks and modifiers stand around them.
  lemma NamesReadTheList(slots: seq<Slot>)
    requires slots != [] && forall k :: 0 <= k < |slots| ==> IsSlot(slots[k])
    ensures Names(Join(SlotTexts(slots), ',')) == SlotNames(slots)
  {
    var texts := SlotTexts(slots);
    forall k | 0 <= k < |texts|
      ensures ',' !in texts[k]
    {
      SlotHasNoComma(slots[k]);
    }
    SplitUndoesJoin(texts, ',');
    WordsOfSlots(slots);
  }

  // ---- Operator and names in the text ----

  function BeforeEquals(piece: string): string {
    if piece == [] || piece[0] == '=' then "" else [piece[0]] + BeforeEquals(piece[1..])
  }

  lemma {:induction false} BeforeEqualsOfNamed(name: string, value: string)
    requires '=' !in name
    ensures BeforeEquals(name + "=" + value) == name
  {
    var piece := name + "=" + value;
    if name != [] {
      BeforeEqualsOfNamed(name[1..], value);
      assert piece[1..] == name[1..] + "=" + value;
      assert name[0] in name;
      assert piece[0] == name[0];
    }
  }

  // Under every operator but `+` the text begins with the operator, and under `;`, `?` and `&` each piece carries the
  // name of its value.
  lemma ExpansionShowsOperatorAndNames(operator: Option<char>, names: seq<string>, values: seq<string>)
    requires |names| == |values| > 0
    requires operator.Some? ==> IsOperator(operator.value)
    requires forall k :: 0 <= k < |names| ==> forall c :: c in names[k] ==> WordChar(c)
    ensures var text := ExpandExpression(operator, names, values);
      && (HasLead(operator) ==> text != "" && text[0] == operator.value)
      && (HasNames(operator) ==>
            var pieces := Split(text[1..], SeparatorOf(operator));
            && |pieces| == |names|
            && forall k :: 0 <= k < |names| ==> BeforeEquals(pieces[k]) == names[k])
  {
    var encoded := EncodeAll(values, Reserved(operator));
    var pieces := Pieces(operator, names, encoded);
    AssembledIsJoined(operator, names, encoded);
    if HasNames(operator) {
      forall k | 0 <= k < |pieces|
        ensures SeparatorOf(operator) !in pieces[k] && BeforeEquals(pieces[k]) == names[k]
      {
        PieceSplits(operator, names[k], encoded[k]);
        PlainSplits(operator, values[k]);
        BeforeEqualsOfNamed(names[k], encoded[k]);
      }
      SplitUndoesJoin(pieces, SeparatorOf(operator));
      LeadComesOff(operator.value, Join(pieces, SeparatorOf(operator)));
    }
  }
}
