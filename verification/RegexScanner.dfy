/** The one-pass scanner that looks for complex quantified groups in a regular expression, against a
    recursive definition on syntax trees. */
module RegexScanner {
  import opened Prelude

  // ---- The scanner ---------------------------------------------------------------------------

  /** `stack` holds, for every open group and the pattern itself, whether it is complex so far;
      `closed` is the complexity of a group that was just closed. */
  datatype State = State(stack: seq<bool>, inClass: bool, escaped: bool, closed: Option<bool>)

  datatype Outcome = Flagged | Reached(state: State)

  const START := State([false], false, false, None)

  /** The Unicode White_Space property. */
  predicate IsWhitespace(c: char) {
    || '\t' <= c <= '\r' || c == ' ' || c == '\U{85}' || c == '\U{A0}' || c == '\U{1680}'
    || '\U{2000}' <= c <= '\U{200A}' || c == '\U{2028}' || c == '\U{2029}' || c == '\U{202F}'
    || c == '\U{205F}' || c == '\U{3000}'
  }

  predicate CharAt(s: string, i: nat, c: char) {
    i < |s| && s[i] == c
  }

  function Top(stack: seq<bool>): bool {
    |stack| > 0 && stack[|stack| - 1]
  }

  function MarkTop(stack: seq<bool>, complex: bool): seq<bool> {
    if |stack| == 0 then stack else stack[|stack| - 1 := stack[|stack| - 1] || complex]
  }

  function Next(s: string, i: nat, st: State): Outcome
    requires i < |s|
  {
    var c := s[i];
    if st.escaped then Reached(st.(escaped := false, closed := None))
    else if c == '\\' then Reached(st.(escaped := true, closed := None))
    else if c == '[' && !st.inClass then Reached(st.(inClass := true, closed := None))
    else if c == ']' && st.inClass then Reached(st.(inClass := false))
    else if st.inClass then Reached(st)
    else if c == '(' && CharAt(s, i + 1, '?') && !CharAt(s, i + 2, ':') then Flagged
    else if c == '(' then Reached(st.(stack := st.stack + [false], closed := None))
    else if c == ')' && |st.stack| > 1 then
      var group := Top(st.stack);
      Reached(st.(stack := MarkTop(st.stack[..|st.stack| - 1], group), closed := Some(group)))
    else if c in "*+{" then
      if st.closed == Some(true) then Flagged
      else Reached(st.(stack := MarkTop(st.stack, true), closed := None))
    else
      Reached(st.(stack := if c == '|' then MarkTop(st.stack, true) else st.stack,
                  closed := if IsWhitespace(c) then st.closed else None))
  }

  /** The scanner's state after reading the characters from `i` up to `j`. */
  function Scan(s: string, i: nat, j: nat, st: State): Outcome
    requires i <= j <= |s|
    decreases j - i
  {
    if i == j then Reached(st)
    else
      match Next(s, i, st)
      case Flagged => Flagged
      case Reached(next) => Scan(s, i + 1, j, next)
  }

  /** The stack always holds at least the pattern's own frame. */
  lemma {:induction false} StackNeverEmpties(s: string, i: nat, j: nat, st: State)
    requires i <= j <= |s| && |st.stack| >= 1
    ensures Scan(s, i, j, st).Reached? ==> |Scan(s, i, j, st).state.stack| >= 1
    decreases j - i
  {
    if i < j && Next(s, i, st).Reached? {
      StackNeverEmpties(s, i + 1, j, Next(s, i, st).state);
    }
  }

  lemma {:induction false} ScanSplits(s: string, i: nat, k: nat, j: nat, st: State)
    requires i <= k <= j <= |s|
    ensures Scan(s, i, j, st) ==
            match Scan(s, i, k, st) {
              case Flagged => Flagged
              case Reached(mid) => Scan(s, k, j, mid)
            }
    decreases k - i
  {
    if i < k && Next(s, i, st).Reached? {
      ScanSplits(s, i + 1, k, j, Next(s, i, st).state);
    }
  }

  method HasUnsafeQuantifiedGroup(source: string) returns (unsafe: bool)
    ensures unsafe <==> Scan(source, 0, |source|, START).Flagged?
  {
    var stack, inClass, escaped, closed := [false], false, false, None;
    var index := 0;
    while index < |source|
      invariant 0 <= index <= |source| && |stack| >= 1
      invariant Scan(source, 0, |source|, START)
                == Scan(source, index, |source|, State(stack, inClass, escaped, closed))
    {
      var c := source[index];
      index := index + 1;
      if escaped {
        escaped, closed := false, None;
        continue;
      }
      if c == '\\' {
        escaped, closed := true, None;
        continue;
      }
      if c == '[' && !inClass {
        inClass, closed := true, None;
        continue;
      }
      if c == ']' && inClass {
        inClass := false;
        continue;
      }
      if inClass {
        continue;
      }
      if c == '(' && CharAt(source, index, '?') && !CharAt(source, index + 1, ':') {
        return true;
      }
      if c == '(' {
        stack, closed := stack + [false], None;
        continue;
      }
      if c == ')' && |stack| > 1 {
        var group := stack[|stack| - 1];
        stack := stack[..|stack| - 1];
        ghost var marked := MarkTop(stack, group);
        if group {
          stack := stack[|stack| - 1 := true];
        }
        assert stack == marked;
        closed := Some(group);
        continue;
      }
      if c == '*' || c == '+' || c == '{' {
        if closed == Some(true) {
          return true;
        }
        stack, closed := stack[|stack| - 1 := true], None;
        continue;
      }
      if c == '|' {
        stack := stack[|stack| - 1 := true];
      }
      if !IsWhitespace(c) {
        closed := None;
      }
    }
    return false;
  }

  // ---- Syntax trees --------------------------------------------------------------------------

  datatype GroupKind = Capturing | NonCapturing | Special(marker: char)

  datatype Quantifier = Star | Plus | Count(bounds: string)

  datatype ClassItem = Plain(c: char) | EscapedItem(c: char)

  datatype Regex =
    | Nothing
    | Literal(c: char)
    | Escape(c: char)
    | Class(items: seq<ClassItem>)
    | Group(kind: GroupKind, body: Regex)
    | Concat(left: Regex, right: Regex)
    | Alternation(left: Regex, right: Regex)
    | Optional(body: Regex)
    | Repeat(body: Regex, quantifier: Quantifier)

  /** What a quantifier can be written after. */
  predicate IsOperand(r: Regex) {
    !r.Nothing? && !r.Concat? && !r.Alternation?
  }

  predicate WellFormed(r: Regex) {
    match r
    case Nothing => true
    case Literal(c) => c !in "\\[()*+{|?"
    case Escape(_) => true
    case Class(items) => forall k :: 0 <= k < |items| && items[k].Plain? ==> items[k].c !in "\\]"
    case Group(kind, body) => (kind.Special? ==> kind.marker != ':') && WellFormed(body)
    case Concat(l, r) => WellFormed(l) && WellFormed(r)
    case Alternation(l, r) => WellFormed(l) && WellFormed(r)
    case Optional(body) => IsOperand(body) && WellFormed(body)
    case Repeat(body, q) =>
      && IsOperand(body) && WellFormed(body)
      && (q.Count? ==> IsBounds(q.bounds))
  }

  function PrintItem(item: ClassItem): string {
    match item
    case Plain(c) => [c]
    case EscapedItem(c) => ['\\', c]
  }

  function PrintItems(items: seq<ClassItem>): string {
    if items == [] then [] else PrintItem(items[0]) + PrintItems(items[1..])
  }

  function Opening(kind: GroupKind): string {
    match kind
    case Capturing => "("
    case NonCapturing => "(?:"
    case Special(marker) => ['(', '?', marker]
  }

  function PrintQuantifier(q: Quantifier): string {
    match q
    case Star => "*"
    case Plus => "+"
    case Count(bounds) => "{" + bounds + "}"
  }

  function Print(r: Regex): string {
    match r
    case Nothing => ""
    case Literal(c) => [c]
    case Escape(c) => ['\\', c]
    case Class(items) => "[" + PrintItems(items) + "]"
    case Group(kind, body) => Opening(kind) + Print(body) + ")"
    case Concat(l, r) => Print(l) + Print(r)
    case Alternation(l, r) => Print(l) + "|" + Print(r)
    case Optional(body) => Print(body) + "?"
    case Repeat(body, q) => Print(body) + PrintQuantifier(q)
  }

  /** Some quantifier or alternation occurs, at any depth. */
  predicate Complex(r: Regex) {
    match r
    case Group(_, body) => Complex(body)
    case Concat(l, r) => Complex(l) || Complex(r)
    case Alternation(_, _) => true
    case Optional(body) => Complex(body)
    case Repeat(_, _) => true
    case _ => false
  }

  /** Some quantifier sits directly on a group whose body is complex, or some group is special. */
  predicate Unsafe(r: Regex) {
    match r
    case Group(kind, body) => kind.Special? || Unsafe(body)
    case Concat(l, r) => Unsafe(l) || Unsafe(r)
    case Alternation(l, r) => Unsafe(l) || Unsafe(r)
    case Optional(body) => Unsafe(body)
    case Repeat(body, _) => (body.Group? && Complex(body.body)) || Unsafe(body)
    case _ => false
  }

  /** The part is the tree itself or stands somewhere below it. */
  predicate Occurs(part: Regex, r: Regex) {
    || part == r
    || match r {
         case Group(_, body) => Occurs(part, body)
         case Concat(l, r) => Occurs(part, l) || Occurs(part, r)
         case Alternation(l, r) => Occurs(part, l) || Occurs(part, r)
         case Optional(body) => Occurs(part, body)
         case Repeat(body, _) => Occurs(part, body)
         case _ => false
       }
  }

  /** Branches or repeats somewhere. */
  ghost predicate HasChoice(r: Regex) {
    exists part :: Occurs(part, r) && (part.Repeat? || part.Alternation?)
  }

  lemma {:induction false} ComplexExactly(r: Regex)
    ensures Complex(r) <==> HasChoice(r)
  {
    match r
    case Group(_, body) => ComplexExactly(body);
    case Concat(l, r') =>
      ComplexExactly(l);
      ComplexExactly(r');
    case Alternation(_, _) => assert Occurs(r, r);
    case Optional(body) => ComplexExactly(body);
    case Repeat(_, _) => assert Occurs(r, r);
    case _ =>
  }

  /** What makes a tree unsafe: a lookaround or another special group, or a repeated group with a choice. */
  ghost predicate Offends(part: Regex) {
    (part.Group? && part.kind.Special?) || (part.Repeat? && part.body.Group? && HasChoice(part.body.body))
  }

  lemma {:induction false} OffenceIsUnsafe(r: Regex, part: Regex)
    requires Occurs(part, r) && Offends(part)
    ensures Unsafe(r)
  {
    if part == r {
      if r.Repeat? {
        ComplexExactly(r.body.body);
      }
    } else {
      match r
      case Group(_, body) => OffenceIsUnsafe(body, part);
      case Concat(l, r') => if Occurs(part, l) { OffenceIsUnsafe(l, part); } else { OffenceIsUnsafe(r', part); }
      case Alternation(l, r') => if Occurs(part, l) { OffenceIsUnsafe(l, part); } else { OffenceIsUnsafe(r', part); }
      case Optional(body) => OffenceIsUnsafe(body, part);
      case Repeat(body, _) => OffenceIsUnsafe(body, part);
    }
  }

  lemma {:induction false} UnsafeOffends(r: Regex) returns (part: Regex)
    requires Unsafe(r)
    ensures Occurs(part, r) && Offends(part)
  {
    match r
    case Group(kind, body) => if kind.Special? { part := r; } else { part := UnsafeOffends(body); }
    case Concat(l, r') => if Unsafe(l) { part := UnsafeOffends(l); } else { part := UnsafeOffends(r'); }
    case Alternation(l, r') => if Unsafe(l) { part := UnsafeOffends(l); } else { part := UnsafeOffends(r'); }
    case Optional(body) => part := UnsafeOffends(body);
    case Repeat(body, _) =>
      if Unsafe(body) {
        part := UnsafeOffends(body);
      } else {
        ComplexExactly(body.body);
        part := r;
      }
  }

  /** A tree is unsafe exactly if some part of it offends. */
  lemma {:induction false} UnsafeExactly(r: Regex)
    ensures Unsafe(r) <==> exists part :: Occurs(part, r) && Offends(part)
  {
    if Unsafe(r) {
      var part := UnsafeOffends(r);
    }
    forall part | Occurs(part, r) && Offends(part) ensures Unsafe(r) {
      OffenceIsUnsafe(r, part);
    }
  }

  // ---- Whitespace ----------------------------------------------------------------------------

  predicate IsSpace(r: Regex) {
    r.Literal? && IsWhitespace(r.c)
  }

  /** The complexity of the group that was closed last, if only whitespace follows it. */
  function LastGroup(r: Regex, before: Option<bool>): Option<bool> {
    match r
    case Nothing => before
    case Literal(c) => if IsWhitespace(c) then before else None
    case Group(_, body) => Some(Complex(body))
    case Concat(l, r) => LastGroup(r, LastGroup(l, before))
    case Alternation(_, r) => LastGroup(r, None)
    case _ => None
  }

  /** A quantified whitespace character follows, across whitespace only, a complex group. */
  predicate QuantifiedGap(r: Regex, before: Option<bool>) {
    match r
    case Group(_, body) => QuantifiedGap(body, None)
    case Concat(l, r) => QuantifiedGap(l, before) || QuantifiedGap(r, LastGroup(l, before))
    case Alternation(l, r) => QuantifiedGap(l, before) || QuantifiedGap(r, None)
    case Optional(body) => QuantifiedGap(body, before)
    case Repeat(body, _) => (IsSpace(body) && before == Some(true)) || QuantifiedGap(body, before)
    case _ => false
  }

  predicate SpaceFree(r: Regex) {
    match r
    case Literal(c) => !IsWhitespace(c)
    case Group(_, body) => SpaceFree(body)
    case Concat(l, r) => SpaceFree(l) && SpaceFree(r)
    case Alternation(l, r) => SpaceFree(l) && SpaceFree(r)
    case Optional(body) => SpaceFree(body)
    case Repeat(body, _) => SpaceFree(body)
    case _ => true
  }

  // ---- Printed texts -------------------------------------------------------------------------

  /** The text stands in `s` from position `i` on. */
  predicate TextAt(s: string, i: nat, text: string) {
    i + |text| <= |s| && forall k {:trigger text[k]} :: 0 <= k < |text| ==> s[i + k] == text[k]
  }

  lemma {:induction false} TextParts(s: string, i: nat, a: string, b: string)
    requires TextAt(s, i, a + b)
    ensures TextAt(s, i, a) && TextAt(s, i + |a|, b)
  {
    forall k | 0 <= k < |a| ensures s[i + k] == a[k] {
      assert (a + b)[k] == a[k];
    }
    forall k | 0 <= k < |b| ensures s[i + |a| + k] == b[k] {
      assert (a + b)[|a| + k] == b[k];
    }
  }

  lemma {:induction false} TextFits(s: string, i: nat, text: string)
    requires TextAt(s, i, text)
    ensures i + |text| <= |s|
  {
  }

  lemma {:induction false} OneChar(s: string, i: nat, c: char)
    requires TextAt(s, i, [c])
    ensures CharAt(s, i, c)
  {
    assert [c][0] == c;
  }

  lemma {:induction false} ThreeParts(s: string, i: nat, a: string, c: char, b: string)
    requires TextAt(s, i, a + [c] + b)
    ensures TextAt(s, i, a) && CharAt(s, i + |a|, c) && TextAt(s, i + |a| + 1, b)
  {
    TextParts(s, i, a + [c], b);
    TextParts(s, i, a, [c]);
    OneChar(s, i + |a|, c);
  }

  /** A printed tree never starts with a question mark, so an opening parenthesis is never misread. */
  lemma {:induction false} NoLeadingQuestionMark(r: Regex)
    requires WellFormed(r)
    ensures Print(r) != [] ==> Print(r)[0] != '?'
    ensures IsOperand(r) ==> Print(r) != []
  {
    match r
    case Concat(l, r) =>
      NoLeadingQuestionMark(l);
      NoLeadingQuestionMark(r);
    case Alternation(l, r) => NoLeadingQuestionMark(l);
    case Optional(body) => NoLeadingQuestionMark(body);
    case Repeat(body, _) => NoLeadingQuestionMark(body);
    case _ =>
  }

  // ---- What the scanner makes of a tree ------------------------------------------------------

  predicate Ready(st: State) {
    |st.stack| >= 1 && !st.inClass && !st.escaped
  }

  function After(r: Regex, st: State): State {
    st.(stack := MarkTop(st.stack, Complex(r)), closed := LastGroup(r, st.closed))
  }

  predicate Flags(r: Regex, closed: Option<bool>) {
    Unsafe(r) || QuantifiedGap(r, closed)
  }

  function Effect(r: Regex, st: State): Outcome {
    if Flags(r, st.closed) then Flagged else Reached(After(r, st))
  }

  /** Marks accumulate. */
  lemma {:induction false} MarkTwice(stack: seq<bool>, a: bool, b: bool)
    ensures MarkTop(MarkTop(stack, a), b) == MarkTop(stack, a || b)
    ensures MarkTop(stack, false) == stack
  {
  }

  function Opened(st: State): State {
    st.(stack := st.stack + [false], closed := None)
  }

  function Marked(st: State): State {
    st.(stack := MarkTop(st.stack, true), closed := None)
  }

  /** One after the other: the second part meets what the first left. */
  lemma {:induction false} EffectOfConcat(left: Regex, right: Regex, st: State)
    ensures Effect(Concat(left, right), st)
            == if Flags(left, st.closed) then Flagged else Effect(right, After(left, st))
  {
    MarkTwice(st.stack, Complex(left), Complex(right));
  }

  lemma {:induction false} EffectOfAlternation(left: Regex, right: Regex, st: State)
    ensures Effect(Alternation(left, right), st)
            == if Flags(left, st.closed) then Flagged else Effect(right, Marked(st))
  {
    MarkTwice(st.stack, true, Complex(right));
  }

  lemma {:induction false} EffectOfGroup(kind: GroupKind, body: Regex, st: State)
    ensures Effect(Group(kind, body), st)
            == if kind.Special? || Flags(body, None) then Flagged
               else Reached(st.(stack := MarkTop(st.stack, Complex(body)), closed := Some(Complex(body))))
  {
  }

  lemma {:induction false} EffectOfOptional(body: Regex, st: State)
    ensures Effect(Optional(body), st)
            == if Flags(body, st.closed) then Flagged else Reached(After(body, st).(closed := None))
  {
  }

  /** What a quantifier finds just before it. */
  lemma {:induction false} OperandClosed(body: Regex, closed: Option<bool>)
    requires IsOperand(body) && !QuantifiedGap(body, closed)
    ensures LastGroup(body, closed) == Some(true) <==>
            (body.Group? && Complex(body.body)) || (IsSpace(body) && closed == Some(true))
  {
  }

  lemma {:induction false} EffectOfRepeat(body: Regex, q: Quantifier, st: State)
    requires IsOperand(body)
    ensures Effect(Repeat(body, q), st)
            == if Flags(body, st.closed) || LastGroup(body, st.closed) == Some(true) then Flagged
               else Reached(Marked(After(body, st)))
  {
    MarkTwice(st.stack, Complex(body), true);
    if !Flags(body, st.closed) {
      OperandClosed(body, st.closed);
    }
  }

  lemma {:induction false} EffectOfLeaf(r: Regex, st: State)
    requires r.Nothing? || r.Literal? || r.Escape? || r.Class?
    ensures Effect(r, st) == Reached(st.(closed := LastGroup(r, st.closed)))
  {
    MarkTwice(st.stack, false, false);
  }

  // ---- The scanner on printed texts ----------------------------------------------------------

  lemma {:induction false} ScanOne(s: string, i: nat, st: State)
    requires i < |s|
    ensures Scan(s, i, i + 1, st) == Next(s, i, st)
  {
  }

  lemma {:induction false} ScanItem(s: string, i: nat, item: ClassItem, st: State)
    requires TextAt(s, i, PrintItem(item)) && (item.Plain? ==> item.c !in "\\]")
    requires st.inClass && !st.escaped && st.closed.None?
    ensures Scan(s, i, i + |PrintItem(item)|, st) == Reached(st)
  {
    match item
    case Plain(c) =>
      OneChar(s, i, c);
      ScanOne(s, i, st);
    case EscapedItem(c) =>
      assert PrintItem(item) == ['\\'] + [c];
      TextParts(s, i, ['\\'], [c]);
      OneChar(s, i, '\\');
      ScanOne(s, i + 1, st.(escaped := true));
  }

  lemma {:induction false} ScanItems(s: string, i: nat, items: seq<ClassItem>, st: State)
    requires TextAt(s, i, PrintItems(items))
    requires st.inClass && !st.escaped && st.closed.None?
    requires forall k :: 0 <= k < |items| && items[k].Plain? ==> items[k].c !in "\\]"
    ensures Scan(s, i, i + |PrintItems(items)|, st) == Reached(st)
    decreases |items|
  {
    if items != [] {
      var k := i + |PrintItem(items[0])|;
      TextParts(s, i, PrintItem(items[0]), PrintItems(items[1..]));
      ScanItem(s, i, items[0], st);
      ScanItems(s, k, items[1..], st);
      ScanSplits(s, i, k, i + |PrintItems(items)|, st);
    }
  }

  lemma {:induction false} ScanClass(s: string, i: nat, items: seq<ClassItem>, st: State)
    requires TextAt(s, i, ['['] + PrintItems(items) + [']']) && Ready(st)
    requires forall k :: 0 <= k < |items| && items[k].Plain? ==> items[k].c !in "\\]"
    ensures i + |PrintItems(items)| + 2 <= |s|
    ensures Scan(s, i, i + |PrintItems(items)| + 2, st) == Reached(st.(closed := None))
  {
    var inside := st.(inClass := true, closed := None);
    var j := i + 1 + |PrintItems(items)|;
    TextParts(s, i, ['['] + PrintItems(items), [']']);
    TextParts(s, i, ['['], PrintItems(items));
    OneChar(s, i, '[');
    OneChar(s, j, ']');
    ScanItems(s, i + 1, items, inside);
    ScanSplits(s, i + 1, j, j + 1, inside);
    ScanOne(s, j, inside);
  }

  lemma {:induction false} ScanBounds(s: string, i: nat, j: nat, st: State)
    requires i <= j <= |s| && Ready(st) && st.closed.None?
    requires forall k :: i <= k < j ==> '0' <= s[k] <= '9' || s[k] == ','
    ensures Scan(s, i, j, st) == Reached(st)
    decreases j - i
  {
    if i < j {
      ScanBounds(s, i + 1, j, st);
    }
  }

  predicate IsBounds(bounds: string) {
    forall k :: 0 <= k < |bounds| ==> '0' <= bounds[k] <= '9' || bounds[k] == ','
  }

  lemma {:induction false} ScanCount(s: string, i: nat, bounds: string, st: State)
    requires TextAt(s, i, ['{'] + bounds + ['}']) && IsBounds(bounds) && Ready(st) && st.closed != Some(true)
    ensures i + |bounds| + 2 <= |s|
    ensures Scan(s, i, i + |bounds| + 2, st) == Reached(Marked(st))
  {
    var j := i + 1 + |bounds|;
    TextParts(s, i, ['{'] + bounds, ['}']);
    TextParts(s, i, ['{'], bounds);
    OneChar(s, i, '{');
    OneChar(s, j, '}');
    forall k | i + 1 <= k < j ensures '0' <= s[k] <= '9' || s[k] == ',' {
      assert s[i + 1 + (k - i - 1)] == bounds[k - i - 1];
    }
    ScanBounds(s, i + 1, j, Marked(st));
    ScanSplits(s, i + 1, j, j + 1, Marked(st));
    ScanOne(s, j, Marked(st));
  }

  predicate QuantifierOk(q: Quantifier) {
    q.Count? ==> IsBounds(q.bounds)
  }

  lemma {:induction false} QuantifierStarts(s: string, i: nat, q: Quantifier)
    requires TextAt(s, i, PrintQuantifier(q))
    ensures i < |s| && s[i] in "*+{" && |PrintQuantifier(q)| >= 1
  {
    assert PrintQuantifier(q)[0] in "*+{";
    assert s[i + 0] == PrintQuantifier(q)[0];
  }

  lemma {:induction false} ScanQuantifier(s: string, i: nat, q: Quantifier, st: State)
    requires TextAt(s, i, PrintQuantifier(q)) && Ready(st) && QuantifierOk(q)
    ensures Scan(s, i, i + |PrintQuantifier(q)|, st)
            == if st.closed == Some(true) then Flagged else Reached(Marked(st))
  {
    QuantifierStarts(s, i, q);
    if st.closed != Some(true) {
      match q
      case Count(bounds) => ScanCount(s, i, bounds, st);
      case _ => ScanOne(s, i, st);
    }
  }

  lemma {:induction false} ScanNonCapturing(s: string, i: nat, st: State)
    requires CharAt(s, i, '(') && CharAt(s, i + 1, '?') && CharAt(s, i + 2, ':') && Ready(st)
    ensures Scan(s, i, i + 3, st) == Reached(Opened(st))
  {
    var open := Opened(st);
    assert Next(s, i, st) == Reached(open);
    assert Next(s, i + 1, open) == Reached(open) && Next(s, i + 2, open) == Reached(open);
    ScanOne(s, i + 2, open);
    assert Scan(s, i + 1, i + 3, open) == Reached(open);
  }

  lemma {:induction false} OpeningChars(s: string, i: nat, kind: GroupKind)
    requires TextAt(s, i, Opening(kind))
    ensures CharAt(s, i, '(')
    ensures kind.NonCapturing? ==> CharAt(s, i + 1, '?') && CharAt(s, i + 2, ':')
    ensures kind.Special? ==> CharAt(s, i + 1, '?') && CharAt(s, i + 2, kind.marker)
  {
    var text := Opening(kind);
    assert s[i + 0] == text[0];
    if !kind.Capturing? {
      assert s[i + 1] == text[1] && s[i + 2] == text[2];
    }
  }

  /** What follows an opening parenthesis of a capturing group is its body or its end. */
  lemma {:induction false} NoQuestionMark(s: string, i: nat, body: Regex)
    requires TextAt(s, i, Print(body)) && CharAt(s, i + |Print(body)|, ')') && WellFormed(body)
    ensures !CharAt(s, i, '?')
  {
    NoLeadingQuestionMark(body);
    if Print(body) != [] {
      assert s[i + 0] == Print(body)[0];
    }
  }

  lemma {:induction false} ScanOpening(s: string, i: nat, kind: GroupKind, st: State)
    requires TextAt(s, i, Opening(kind)) && Ready(st) && (kind.Special? ==> kind.marker != ':')
    requires kind.Capturing? ==> !CharAt(s, i + 1, '?')
    ensures Scan(s, i, i + |Opening(kind)|, st) == if kind.Special? then Flagged else Reached(Opened(st))
  {
    OpeningChars(s, i, kind);
    match kind
    case Capturing => ScanOne(s, i, st);
    case NonCapturing => ScanNonCapturing(s, i, st);
    case Special(_) =>
      ScanOne(s, i, st);
      ScanSplits(s, i, i + 1, i + 3, st);
  }

  /** Reading the closing parenthesis of a group. */
  lemma {:induction false} ScanClosing(s: string, k: nat, st: State, complex: bool, closed: Option<bool>)
    requires CharAt(s, k, ')') && Ready(st)
    ensures Scan(s, k, k + 1, st.(stack := MarkTop(st.stack + [false], complex), closed := closed))
            == Reached(st.(stack := MarkTop(st.stack, complex), closed := Some(complex)))
  {
    var from := st.(stack := MarkTop(st.stack + [false], complex), closed := closed);
    assert from.stack[..|from.stack| - 1] == st.stack;
    ScanOne(s, k, from);
  }

  /** Reading the bar of an alternation. */
  lemma {:induction false} ScanBar(s: string, k: nat, st: State, left: Regex)
    requires CharAt(s, k, '|') && Ready(st)
    ensures Scan(s, k, k + 1, After(left, st)) == Reached(Marked(st))
  {
    ScanOne(s, k, After(left, st));
    MarkTwice(st.stack, Complex(left), true);
  }

  /** Reading the mark of an optional. */
  lemma {:induction false} ScanMark(s: string, k: nat, st: State)
    requires CharAt(s, k, '?') && Ready(st)
    ensures Scan(s, k, k + 1, st) == Reached(st.(closed := None))
  {
    ScanOne(s, k, st);
  }

  lemma {:induction false} ScanLeaf(s: string, i: nat, r: Regex, st: State)
    requires r.Nothing? || r.Literal? || r.Escape?
    requires TextAt(s, i, Print(r)) && WellFormed(r) && Ready(st)
    ensures Scan(s, i, i + |Print(r)|, st) == Reached(st.(closed := LastGroup(r, st.closed)))
  {
    match r
    case Literal(c) =>
      OneChar(s, i, c);
      ScanOne(s, i, st);
    case Escape(c) =>
      assert Print(r) == ['\\'] + [c];
      TextParts(s, i, ['\\'], [c]);
      OneChar(s, i, '\\');
      ScanOne(s, i + 1, st.(escaped := true, closed := None));
    case _ =>
  }

  /** From the opening of a group that is not special on. */
  lemma {:induction false} ScanGroupBody(s: string, open: nat, r: Regex, body: Regex, st: State)
    requires body < r && TextAt(s, open, Print(body)) && CharAt(s, open + |Print(body)|, ')')
    requires WellFormed(body) && Ready(st)
    ensures Scan(s, open, open + |Print(body)| + 1, Opened(st))
            == if Flags(body, None) then Flagged
               else Reached(st.(stack := MarkTop(st.stack, Complex(body)), closed := Some(Complex(body))))
    decreases r, 0
  {
    hide Print, PrintQuantifier, QuantifierOk, WellFormed, IsOperand, Complex, Unsafe, LastGroup, QuantifiedGap, Scan,
      TextAt;
    var close := open + |Print(body)|;
    ScanPrinted(s, open, body, Opened(st));
    ScanSplits(s, open, close, close + 1, Opened(st));
    if !Flags(body, None) {
      ScanClosing(s, close, st, Complex(body), LastGroup(body, None));
    }
  }

  lemma {:induction false} ScanGroup(s: string, i: nat, r: Regex, kind: GroupKind, body: Regex, st: State)
    requires body < r && TextAt(s, i, Opening(kind)) && TextAt(s, i + |Opening(kind)|, Print(body))
    requires CharAt(s, i + |Opening(kind)| + |Print(body)|, ')')
    requires (kind.Special? ==> kind.marker != ':') && (kind.Capturing? ==> !CharAt(s, i + 1, '?'))
    requires WellFormed(body) && Ready(st)
    ensures Scan(s, i, i + |Opening(kind)| + |Print(body)| + 1, st) == Effect(Group(kind, body), st)
    decreases r, 1
  {
    hide Print, PrintQuantifier, QuantifierOk, WellFormed, IsOperand, Complex, Unsafe, LastGroup, QuantifiedGap, Scan,
      TextAt;
    var open := i + |Opening(kind)|;
    ScanOpening(s, i, kind, st);
    ScanSplits(s, i, open, open + |Print(body)| + 1, st);
    EffectOfGroup(kind, body, st);
    if !kind.Special? {
      ScanGroupBody(s, open, r, body, st);
    }
  }

  lemma {:induction false} ScanConcat(s: string, i: nat, r: Regex, left: Regex, right: Regex, st: State)
    requires left < r && right < r && TextAt(s, i, Print(left)) && TextAt(s, i + |Print(left)|, Print(right))
    requires WellFormed(left) && WellFormed(right) && Ready(st)
    ensures Scan(s, i, i + |Print(left)| + |Print(right)|, st) == Effect(Concat(left, right), st)
    decreases r, 0
  {
    hide Print, PrintQuantifier, QuantifierOk, WellFormed, IsOperand, Complex, Unsafe, LastGroup, QuantifiedGap, Scan,
      TextAt;
    var k := i + |Print(left)|;
    ScanPrinted(s, i, left, st);
    TextFits(s, k, Print(right));
    ScanSplits(s, i, k, k + |Print(right)|, st);
    EffectOfConcat(left, right, st);
    if !Flags(left, st.closed) {
      ScanPrinted(s, k, right, After(left, st));
    }
  }

  /** From the bar of an alternation on. */
  lemma {:induction false} ScanSecond(s: string, k: nat, r: Regex, left: Regex, right: Regex, st: State)
    requires right < r && CharAt(s, k, '|') && TextAt(s, k + 1, Print(right)) && WellFormed(right) && Ready(st)
    ensures Scan(s, k, k + 1 + |Print(right)|, After(left, st)) == Effect(right, Marked(st))
    decreases r, 0
  {
    hide Print, PrintQuantifier, QuantifierOk, WellFormed, IsOperand, Complex, Unsafe, LastGroup, QuantifiedGap, Scan,
      TextAt;
    ScanBar(s, k, st, left);
    TextFits(s, k + 1, Print(right));
    ScanSplits(s, k, k + 1, k + 1 + |Print(right)|, After(left, st));
    ScanPrinted(s, k + 1, right, Marked(st));
  }

  lemma {:induction false} ScanAlternation(s: string, i: nat, r: Regex, left: Regex, right: Regex, st: State)
    requires left < r && right < r && TextAt(s, i, Print(left)) && CharAt(s, i + |Print(left)|, '|')
    requires TextAt(s, i + |Print(left)| + 1, Print(right)) && WellFormed(left) && WellFormed(right) && Ready(st)
    ensures Scan(s, i, i + |Print(left)| + 1 + |Print(right)|, st) == Effect(Alternation(left, right), st)
    decreases r, 1
  {
    hide Print, PrintQuantifier, QuantifierOk, WellFormed, IsOperand, Complex, Unsafe, LastGroup, QuantifiedGap, Scan,
      TextAt;
    var k := i + |Print(left)|;
    ScanPrinted(s, i, left, st);
    TextFits(s, k + 1, Print(right));
    ScanSplits(s, i, k, k + 1 + |Print(right)|, st);
    EffectOfAlternation(left, right, st);
    if !Flags(left, st.closed) {
      ScanSecond(s, k, r, left, right, st);
    }
  }

  lemma {:induction false} ScanOptional(s: string, i: nat, r: Regex, body: Regex, st: State)
    requires body < r && TextAt(s, i, Print(body)) && CharAt(s, i + |Print(body)|, '?') && WellFormed(body) && Ready(st)
    ensures Scan(s, i, i + |Print(body)| + 1, st) == Effect(Optional(body), st)
    decreases r, 0
  {
    hide Print, PrintQuantifier, QuantifierOk, WellFormed, IsOperand, Complex, Unsafe, LastGroup, QuantifiedGap, Scan,
      TextAt;
    var k := i + |Print(body)|;
    ScanPrinted(s, i, body, st);
    ScanSplits(s, i, k, k + 1, st);
    EffectOfOptional(body, st);
    if !Flags(body, st.closed) {
      ScanMark(s, k, After(body, st));
    }
  }

  lemma {:induction false} ScanRepeat(s: string, i: nat, r: Regex, body: Regex, q: Quantifier, st: State)
    requires body < r && TextAt(s, i, Print(body)) && TextAt(s, i + |Print(body)|, PrintQuantifier(q))
    requires IsOperand(body) && WellFormed(body) && QuantifierOk(q) && Ready(st)
    ensures Scan(s, i, i + |Print(body)| + |PrintQuantifier(q)|, st) == Effect(Repeat(body, q), st)
    decreases r, 0
  {
    hide Print, PrintQuantifier, QuantifierOk, WellFormed, IsOperand, Complex, Unsafe, LastGroup, QuantifiedGap, Scan,
      TextAt;
    var k := i + |Print(body)|;
    ScanPrinted(s, i, body, st);
    TextFits(s, k, PrintQuantifier(q));
    ScanSplits(s, i, k, k + |PrintQuantifier(q)|, st);
    EffectOfRepeat(body, q, st);
    if !Flags(body, st.closed) {
      ScanQuantifier(s, k, q, After(body, st));
    }
  }

  // ---- The parts of a printed tree -----------------------------------------------------------

  lemma {:induction false} GroupParts(s: string, i: nat, opening: string, body: string)
    requires TextAt(s, i, opening + body + [')'])
    ensures TextAt(s, i, opening) && TextAt(s, i + |opening|, body) && CharAt(s, i + |opening| + |body|, ')')
  {
    TextParts(s, i, opening + body, [')']);
    TextParts(s, i, opening, body);
    OneChar(s, i + |opening| + |body|, ')');
  }

  lemma {:induction false} OptionalParts(s: string, i: nat, body: string)
    requires TextAt(s, i, body + ['?'])
    ensures TextAt(s, i, body) && CharAt(s, i + |body|, '?')
  {
    TextParts(s, i, body, ['?']);
    OneChar(s, i + |body|, '?');
  }

  lemma {:induction false} ScanPrintedGroup(s: string, i: nat, r: Regex, st: State)
    requires r.Group? && TextAt(s, i, Print(r)) && WellFormed(r) && Ready(st)
    ensures Scan(s, i, i + |Print(r)|, st) == Effect(r, st)
    decreases r, 2
  {
    GroupParts(s, i, Opening(r.kind), Print(r.body));
    NoQuestionMark(s, i + |Opening(r.kind)|, r.body);
    ScanGroup(s, i, r, r.kind, r.body, st);
  }

  lemma {:induction false} ScanPrintedPair(s: string, i: nat, r: Regex, st: State)
    requires (r.Concat? || r.Alternation?) && TextAt(s, i, Print(r)) && WellFormed(r) && Ready(st)
    ensures Scan(s, i, i + |Print(r)|, st) == Effect(r, st)
    decreases r, 2
  {
    if r.Concat? {
      TextParts(s, i, Print(r.left), Print(r.right));
      ScanConcat(s, i, r, r.left, r.right, st);
    } else {
      ThreeParts(s, i, Print(r.left), '|', Print(r.right));
      ScanAlternation(s, i, r, r.left, r.right, st);
    }
  }

  lemma {:induction false} ScanPrintedPostfix(s: string, i: nat, r: Regex, st: State)
    requires (r.Optional? || r.Repeat?) && TextAt(s, i, Print(r)) && WellFormed(r) && Ready(st)
    ensures Scan(s, i, i + |Print(r)|, st) == Effect(r, st)
    decreases r, 2
  {
    if r.Optional? {
      OptionalParts(s, i, Print(r.body));
      ScanOptional(s, i, r, r.body, st);
    } else {
      TextParts(s, i, Print(r.body), PrintQuantifier(r.quantifier));
      ScanRepeat(s, i, r, r.body, r.quantifier, st);
    }
  }

  /** Reading a printed tree, anywhere in a string and in any state outside classes and escapes, has
      exactly the effect that the tree's recursive definitions describe. */
  lemma {:induction false} ScanPrinted(s: string, i: nat, r: Regex, st: State)
    requires TextAt(s, i, Print(r)) && WellFormed(r) && Ready(st)
    ensures Scan(s, i, i + |Print(r)|, st) == Effect(r, st)
    decreases r, 3
  {
    if r.Group? {
      ScanPrintedGroup(s, i, r, st);
    } else if r.Concat? || r.Alternation? {
      ScanPrintedPair(s, i, r, st);
    } else if r.Optional? || r.Repeat? {
      ScanPrintedPostfix(s, i, r, st);
    } else if r.Class? {
      ScanClass(s, i, r.items, st);
      EffectOfLeaf(r, st);
    } else {
      ScanLeaf(s, i, r, st);
      EffectOfLeaf(r, st);
    }
  }

  /** The scanner's verdict on the printed form of any tree: unsafe, or a quantified gap. */
  lemma {:induction false} ScannerVerdict(r: Regex)
    requires WellFormed(r)
    ensures Scan(Print(r), 0, |Print(r)|, START).Flagged? <==> Unsafe(r) || QuantifiedGap(r, None)
  {
    ScanPrinted(Print(r), 0, r, START);
  }

  lemma {:induction false} NoSpaceNoGap(r: Regex, before: Option<bool>)
    requires SpaceFree(r)
    ensures !QuantifiedGap(r, before)
  {
    match r
    case Group(_, body) => NoSpaceNoGap(body, None);
    case Concat(l, r') =>
      NoSpaceNoGap(l, before);
      NoSpaceNoGap(r', LastGroup(l, before));
    case Alternation(l, r') =>
      NoSpaceNoGap(l, before);
      NoSpaceNoGap(r', None);
    case Optional(body) => NoSpaceNoGap(body, before);
    case Repeat(body, _) => NoSpaceNoGap(body, before);
    case _ =>
  }

  /** Without whitespace literals the scanner finds exactly the unsafe trees. */
  lemma {:induction false} ScannerIsExact(r: Regex)
    requires WellFormed(r) && SpaceFree(r)
    ensures Scan(Print(r), 0, |Print(r)|, START).Flagged? <==> Unsafe(r)
  {
    ScannerVerdict(r);
    NoSpaceNoGap(r, None);
  }

  /** With whitespace it errs only on the safe side, and exactly on the quantified gaps. */
  lemma {:induction false} ScannerErrsExactlyOnGaps(r: Regex)
    requires WellFormed(r)
    ensures (Scan(Print(r), 0, |Print(r)|, START).Flagged? <==> Unsafe(r)) <==> (Unsafe(r) || !QuantifiedGap(r, None))
    ensures Unsafe(r) ==> Scan(Print(r), 0, |Print(r)|, START).Flagged?
  {
    ScannerVerdict(r);
  }

  /** A pattern whose starred space is taken for a starred group: `(a|b) *`. */
  lemma {:induction false} SpaceAfterGroupIsFlagged()
    ensures exists r :: WellFormed(r) && !Unsafe(r) && Print(r) == "(a|b) *"
                        && Scan(Print(r), 0, |Print(r)|, START).Flagged?
  {
    var r := Concat(Group(Capturing, Alternation(Literal('a'), Literal('b'))), Repeat(Literal(' '), Star));
    ScannerVerdict(r);
    assert LastGroup(r.left, None) == Some(true);
    assert Print(r.left) == "(a|b)";
    assert Print(r.right) == " *";
  }
}
