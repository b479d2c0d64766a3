/** Parsing one line of backtrace_symbols() in place.

    The scanner cuts a NUL-terminated buffer into strings by writing NULs over five delimiters.  The
    specification never mentions NULs: it names the delimiters' places and the text between them.
 */
module SymbolParser {
  import opened Wrappers

  const NUL: char := '\0'

  const NONE: int := -1

  const TWO_TO_THE_64: int := 0x1_0000_0000_0000_0000

  // The places of ( + ) [ ], or NONE.
  datatype Marks = Marks(open: int, plus: int, close: int, openSquare: int, closeSquare: int)

  const UNMARKED := Marks(NONE, NONE, NONE, NONE, NONE)

  datatype StackFrame = StackFrame(moduleName: string, functionName: string, offset: nat, returnAddress: nat)

  // ---------- scanning ----------

  // One character of the scan; None is one of the "format changed" errors.
  function Step(m: Marks, c: char, at: nat): Option<Marks> {
    match c
    case '(' =>
      if m == UNMARKED then Some(m.(open := at)) else None
    case '+' =>
      if m.open == NONE then Some(m)
      else if m.plus != NONE || m.close != NONE || m.openSquare != NONE || m.closeSquare != NONE then None
      else Some(m.(plus := at))
    case ')' =>
      if m.close != NONE || m.open == NONE || m.openSquare != NONE || m.closeSquare != NONE then None
      else Some(m.(close := at))
    case '[' =>
      if m.openSquare != NONE || m.closeSquare != NONE then None else Some(m.(openSquare := at))
    case ']' =>
      if m.closeSquare != NONE || m.openSquare == NONE then None else Some(m.(closeSquare := at))
    case _ => Some(m)
  }

  // Scanning `s`, which starts at place `at`.
  function Scan(m: Option<Marks>, s: string, at: nat): Option<Marks>
    decreases |s|
  {
    if s == [] || m.None? then m
    else
      var before := Scan(m, s[..|s| - 1], at);
      if before.None? then None else Step(before.value, s[|s| - 1], at + |s| - 1)
  }

  // `at` is the only place of `c` in `s`, or there is none.
  ghost predicate OnlyPlace(s: string, c: char, at: int) {
    && (at == NONE || (0 <= at < |s| && s[at] == c))
    && forall i :: 0 <= i < |s| && s[i] == c ==> i == at
  }

  // The + behind the opening parenthesis.
  ghost predicate PlusPlace(s: string, open: int, at: int) {
    && (at == NONE || (0 <= open < at < |s| && s[at] == '+'))
    && forall i :: 0 <= open < i < |s| && s[i] == '+' ==> i == at
  }

  predicate Ordered(m: Marks) {
    && (m.plus != NONE ==> m.open < m.plus)
    && (m.close != NONE ==> m.open != NONE && m.open < m.close && m.plus < m.close)
    && (m.openSquare != NONE ==> m.open < m.openSquare && m.plus < m.openSquare && m.close < m.openSquare)
    && (m.closeSquare != NONE ==> m.openSquare != NONE && m.openSquare < m.closeSquare)
  }

  // Each delimiter occurs at most once (a + counts only behind the parenthesis), in the order ( + ) [ ].
  ghost predicate Delimited(s: string, m: Marks) {
    && OnlyPlace(s, '(', m.open) && PlusPlace(s, m.open, m.plus) && OnlyPlace(s, ')', m.close)
    && OnlyPlace(s, '[', m.openSquare) && OnlyPlace(s, ']', m.closeSquare)
    && Ordered(m)
  }

  lemma OnlyPlaceSnoc(s: string, c: char, at: int, d: char)
    ensures OnlyPlace(s + [d], c, at) <==> if c == d then OnlyPlace(s, c, NONE) && at == |s| else OnlyPlace(s, c, at)
  {
    var t := s + [d];
    assert forall i :: 0 <= i < |s| ==> t[i] == s[i];
    assert t[|s|] == d;
  }

  lemma PlusPlaceSnoc(s: string, open: int, at: int, d: char)
    requires open == NONE || 0 <= open < |s|
    ensures PlusPlace(s + [d], open, at) <==>
            if d == '+' && open != NONE then PlusPlace(s, open, NONE) && at == |s| else PlusPlace(s, open, at)
  {
    var t := s + [d];
    assert forall i :: 0 <= i < |s| ==> t[i] == s[i];
    assert t[|s|] == d;
  }

  // The scan accepts exactly the delimited lines, and finds exactly their delimiters.
  lemma {:induction false} ScanFindsDelimiters(s: string, m: Marks)
    ensures Scan(Some(UNMARKED), s, 0) == Some(m) <==> Delimited(s, m)
    decreases |s|
  {
    if s != [] {
      var t, d := s[..|s| - 1], s[|s| - 1];
      assert s == t + [d];
      DelimitedSnoc(t, d, m);
      var before := Scan(Some(UNMARKED), t, 0);
      if before.Some? { ScanFindsDelimiters(t, before.value); }
      forall b | Delimited(t, b) ensures before == Some(b) { ScanFindsDelimiters(t, b); }
    }
  }

  lemma PlacesSnoc(s: string, d: char, m: Marks)
    ensures OnlyPlace(s + [d], '(', m.open) <==>
            if d == '(' then OnlyPlace(s, '(', NONE) && m.open == |s| else OnlyPlace(s, '(', m.open)
    ensures OnlyPlace(s + [d], ')', m.close) <==>
            if d == ')' then OnlyPlace(s, ')', NONE) && m.close == |s| else OnlyPlace(s, ')', m.close)
    ensures OnlyPlace(s + [d], '[', m.openSquare) <==>
            if d == '[' then OnlyPlace(s, '[', NONE) && m.openSquare == |s| else OnlyPlace(s, '[', m.openSquare)
    ensures OnlyPlace(s + [d], ']', m.closeSquare) <==>
            if d == ']' then OnlyPlace(s, ']', NONE) && m.closeSquare == |s| else OnlyPlace(s, ']', m.closeSquare)
    ensures m.open == NONE || 0 <= m.open < |s| ==>
              (PlusPlace(s + [d], m.open, m.plus) <==>
               if d == '+' && m.open != NONE then PlusPlace(s, m.open, NONE) && m.plus == |s|
               else PlusPlace(s, m.open, m.plus))
    ensures m.open == |s| ==> (PlusPlace(s + [d], m.open, m.plus) <==> m.plus == NONE)
  {
    OnlyPlaceSnoc(s, '(', m.open, d);
    OnlyPlaceSnoc(s, ')', m.close, d);
    OnlyPlaceSnoc(s, '[', m.openSquare, d);
    OnlyPlaceSnoc(s, ']', m.closeSquare, d);
    if m.open == NONE || 0 <= m.open < |s| { PlusPlaceSnoc(s, m.open, m.plus, d); }
  }

  // The marks before the last character.
  function Unmark(m: Marks, d: char): Marks {
    match d
    case '(' => m.(open := NONE)
    case '+' => if m.open == NONE then m else m.(plus := NONE)
    case ')' => m.(close := NONE)
    case '[' => m.(openSquare := NONE)
    case ']' => m.(closeSquare := NONE)
    case _ => m
  }

  lemma StepDelimits(s: string, d: char, m: Marks, b: Marks)
    requires Delimited(s, b) && Step(b, d, |s|) == Some(m)
    ensures Delimited(s + [d], m)
  {
    PlacesSnoc(s, d, m);
  }

  lemma DelimitedStep(s: string, d: char, m: Marks)
    requires Delimited(s + [d], m)
    ensures Delimited(s, Unmark(m, d)) && Step(Unmark(m, d), d, |s|) == Some(m)
  {
    PlacesSnoc(s, d, m);
  }

  lemma DelimitedSnoc(s: string, d: char, m: Marks)
    ensures forall b :: Delimited(s, b) && Step(b, d, |s|) == Some(m) ==> Delimited(s + [d], m)
    ensures Delimited(s + [d], m) ==> exists b :: Delimited(s, b) && Step(b, d, |s|) == Some(m)
  {
    forall b | Delimited(s, b) && Step(b, d, |s|) == Some(m) ensures Delimited(s + [d], m) { StepDelimits(s, d, m, b); }
    if Delimited(s + [d], m) { DelimitedStep(s, d, m); }
  }

  // An error is final.
  lemma {:induction false} ScanPrefix(s: string, k: nat)
    requires k <= |s| && Scan(Some(UNMARKED), s[..k], 0).None?
    ensures Scan(Some(UNMARKED), s, 0).None?
    decreases |s|
  {
    if k < |s| {
      assert s[..|s| - 1][..k] == s[..k];
      ScanPrefix(s[..|s| - 1], k);
    } else {
      assert s[..k] == s;
    }
  }

  // ---------- the fields ----------

  // The first delimiter from `from` on, or the end of the line.
  function Next(m: Marks, from: int, n: int): int {
    if m.open >= from then m.open
    else if m.plus >= from then m.plus
    else if m.close >= from then m.close
    else if m.openSquare >= from then m.openSquare
    else if m.closeSquare >= from then m.closeSquare
    else n
  }

  predicate Within(m: Marks, n: nat) {
    m.open < n && m.plus < n && m.close < n && m.openSquare < n && m.closeSquare < n
  }

  function Field(s: string, m: Marks, from: nat): string
    requires from <= |s| && Within(m, |s|)
  {
    s[from..Next(m, from, |s|)]
  }

  predicate Space(c: char) {
    c == ' ' || '\t' <= c <= '\r'
  }

  function Trimmed(s: string): string
    decreases |s|
  {
    if s == "" then s
    else if Space(s[0]) then Trimmed(s[1..])
    else if Space(s[|s| - 1]) then Trimmed(s[..|s| - 1])
    else s
  }

  function DigitValue(c: char): Option<nat> {
    if '0' <= c <= '9' then Some((c - '0') as int)
    else if 'a' <= c <= 'f' then Some((c - 'a') as int + 10)
    else if 'A' <= c <= 'F' then Some((c - 'A') as int + 10)
    else None
  }

  function Digits(s: string): Option<nat>
    decreases |s|
  {
    if s == "" then Some(0)
    else
      var high, low := Digits(s[..|s| - 1]), DigitValue(s[|s| - 1]);
      if high.None? || low.None? then None else Some(16 * high.value + low.value)
  }

  // A 64-bit hexadecimal number, with or without 0x; an empty field counts as zero.
  function Number(s: string): Option<nat> {
    if s == "" then Some(0)
    else
      var digits := if |s| >= 2 && s[0] == '0' && (s[1] == 'x' || s[1] == 'X') then s[2..] else s;
      if digits == "" then None
      else
        var v := Digits(digits);
        if v.Some? && v.value < TWO_TO_THE_64 then v else None
  }

  function Readable(demangle: string -> string, name: string): string {
    if demangle(name) == "" then name else demangle(name)
  }

  // The text behind a delimiter; nothing if the delimiter is missing.
  function TextAfter(s: string, m: Marks, mark: int): string
    requires Within(m, |s|) && NONE <= mark < |s|
  {
    if mark < 0 then "" else Trimmed(Field(s, m, mark + 1))
  }

  function Assemble(moduleName: string, functionName: string, offset: Option<nat>, returnAddress: Option<nat>)
    : Option<StackFrame>
  {
    if offset.None? || returnAddress.None? then None
    else if moduleName == "" && functionName == "" && offset.value == 0 && returnAddress.value == 0 then None
    else Some(StackFrame(moduleName, functionName, offset.value, returnAddress.value))
  }

  predicate Placed(m: Marks, n: nat) {
    Within(m, n) && NONE <= m.open && NONE <= m.plus && NONE <= m.openSquare
  }

  function FrameOf(s: string, m: Marks, demangle: string -> string): Option<StackFrame>
    requires Placed(m, |s|)
  {
    Assemble(Trimmed(Field(s, m, 0)), if m.open < 0 then "" else Readable(demangle, TextAfter(s, m, m.open)),
             Number(TextAfter(s, m, m.plus)), Number(TextAfter(s, m, m.openSquare)))
  }

  function Parse(s: string, demangle: string -> string): Option<StackFrame> {
    if s == "" then None
    else
      match Scan(Some(UNMARKED), s, 0)
      case None => None
      case Some(m) =>
        if (m.open >= 0 && m.close < 0) || (m.openSquare >= 0 && m.closeSquare < 0) then None
        else
          ScanPlaces(s, m);
          FrameOf(s, m, demangle)
  }

  lemma ScanPlaces(s: string, m: Marks)
    requires Scan(Some(UNMARKED), s, 0) == Some(m)
    ensures Placed(m, |s|) && Ordered(m)
  {
    ScanFindsDelimiters(s, m);
  }

  // ---------- the parser in place ----------

  predicate IsMark(m: Marks, i: int) {
    i == m.open || i == m.plus || i == m.close || i == m.openSquare || i == m.closeSquare
  }

  // The line `s` in the buffer, with the marked delimiters cut out.
  ghost predicate CutBuffer(buffer: seq<char>, s: string, m: Marks) {
    && |s| < |buffer| && buffer[|s|] == NUL
    && forall i :: 0 <= i < |s| ==> s[i] != NUL && buffer[i] == if IsMark(m, i) then NUL else s[i]
  }

  lemma NextIs(m: Marks, from: nat, i: nat, n: nat)
    requires Ordered(m) && Within(m, n) && from <= i <= n && (i == n || IsMark(m, i))
    requires forall k :: from <= k < i ==> !IsMark(m, k)
    ensures Next(m, from, n) == i
  {
    assert IsMark(m, m.open) && IsMark(m, m.plus) && IsMark(m, m.close) && IsMark(m, m.openSquare)
           && IsMark(m, m.closeSquare);
  }

  // The C string that starts at `from`.
  method CString(a: array<char>, from: nat, ghost s: string, ghost m: Marks) returns (field: string)
    requires CutBuffer(a[..], s, m) && from <= |s| && Within(m, |s|) && Ordered(m)
    ensures field == Field(s, m, from)
  {
    var i := from;
    while a[i] != NUL
      invariant from <= i <= |s| && forall k :: from <= k < i ==> !IsMark(m, k)
      decreases |s| - i
    {
      assert a[i] == a[..][i];
      i := i + 1;
    }
    assert a[i] == a[..][i];
    NextIs(m, from, i, |s|);
    field := a[from..i];
    assert forall k :: from <= k < i ==> a[k] == a[..][k] == s[k];
  }

  // The scanning loop: finds the delimiters and cuts the buffer there.
  method CutDelimiters(a: array<char>, ghost n: nat) returns (r: Option<Marks>)
    requires n < a.Length && a[n] == NUL && forall i :: 0 <= i < n ==> a[i] != NUL
    modifies a
    ensures r == Scan(Some(UNMARKED), old(a[..n]), 0)
    ensures r.Some? ==> CutBuffer(a[..], old(a[..n]), r.value) && Within(r.value, n)
    ensures forall i :: n <= i < a.Length ==> a[i] == old(a[i])
    ensures forall i :: 0 <= i < n ==> a[i] == old(a[i]) || (a[i] == NUL && old(a[i]) in "(+)[]")
  {
    ghost var s := a[..n];
    var m := UNMARKED;
    var i := 0;
    while a[i] != NUL
      invariant 0 <= i <= n && Scan(Some(UNMARKED), s[..i], 0) == Some(m) && Within(m, i)
      invariant forall k :: 0 <= k < n ==> a[k] == if IsMark(m, k) then NUL else s[k]
      invariant forall k :: 0 <= k < n && IsMark(m, k) ==> s[k] in "(+)[]"
      invariant forall k :: n <= k < a.Length ==> a[k] == old(a[k])
      decreases n - i
    {
      assert s[..i + 1][..i] == s[..i] && s[..i + 1][i] == s[i];
      var next := Step(m, a[i], i);
      if next.None? {
        ScanPrefix(s, i + 1);
        return None;
      }
      if next.value != m { a[i] := NUL; }
      StepMarks(m, s[i], i, next.value);
      m := next.value;
      i := i + 1;
    }
    assert s[..i] == s;
    r := Some(m);
  }

  // A step marks at most the place it looks at, and only a delimiter.
  lemma StepMarks(m: Marks, c: char, at: nat, next: Marks)
    requires Step(m, c, at) == Some(next) && Within(m, at)
    ensures Within(next, at + 1)
    ensures forall k: nat :: k != at ==> (IsMark(next, k) <==> IsMark(m, k))
    ensures IsMark(next, at) <==> next != m
    ensures next != m ==> c in "(+)[]"
  {
  }

  method ParseSymbolicAddressRepresentation(a: array<char>, demangle: string -> string, ghost n: nat)
    returns (r: Option<StackFrame>)
    requires n < a.Length && a[n] == NUL && forall i :: 0 <= i < n ==> a[i] != NUL
    modifies a
    ensures r == Parse(old(a[..n]), demangle)
    ensures forall i :: n <= i < a.Length ==> a[i] == old(a[i])
    ensures forall i :: 0 <= i < n ==> a[i] == old(a[i]) || (a[i] == NUL && old(a[i]) in "(+)[]")
  {
    ghost var s := a[..n];
    if a[0] == NUL { return None; }
    var marks := CutDelimiters(a, n);
    if marks.None? { return None; }
    var m := marks.value;
    ScanPlaces(s, m);
    if m.open >= 0 && m.close < 0 { return None; }
    if m.openSquare >= 0 && m.closeSquare < 0 { return None; }
    r := ReadFields(a, demangle, s, m);
  }

  method TextBehind(a: array<char>, mark: int, ghost s: string, ghost m: Marks) returns (text: string)
    requires CutBuffer(a[..], s, m) && Within(m, |s|) && Ordered(m) && NONE <= mark < |s|
    ensures text == TextAfter(s, m, mark)
  {
    if mark < 0 { return ""; }
    text := CString(a, mark + 1, s, m);
    text := Trimmed(text);
  }

  // The fields between the cuts.
  method ReadFields(a: array<char>, demangle: string -> string, ghost s: string, m: Marks)
    returns (r: Option<StackFrame>)
    requires CutBuffer(a[..], s, m) && Placed(m, |s|) && Ordered(m)
    ensures r == FrameOf(s, m, demangle)
  {
    var moduleName := CString(a, 0, s, m);
    moduleName := Trimmed(moduleName);
    var functionName := TextBehind(a, m.open, s, m);
    functionName := if m.open < 0 then "" else Readable(demangle, functionName);
    var offsetText := TextBehind(a, m.plus, s, m);
    var offset := Number(offsetText);
    if offset.None? { return None; }
    var addressText := TextBehind(a, m.openSquare, s, m);
    var returnAddress := Number(addressText);
    r := Assemble(moduleName, functionName, offset, returnAddress);
  }

  // ---------- printing ----------

  datatype Call = Call(name: string, offset: Option<nat>)

  // A line of backtrace_symbols(): module(function+0xoffset) [0xaddress], with or without its optional parts.
  datatype Line = Line(moduleName: string, call: Option<Call>, address: Option<nat>)

  function HexDigit(d: nat): char
    requires d < 16
  {
    "0123456789abcdef"[d]
  }

  function Hex(n: nat): (s: string)
    ensures s != ""
  {
    if n < 16 then [HexDigit(n)] else Hex(n / 16) + [HexDigit(n % 16)]
  }

  function HexText(n: nat): string {
    "0x" + Hex(n)
  }

  function OffsetText(offset: Option<nat>): string {
    if offset.None? then "" else "+" + HexText(offset.value)
  }

  function CallText(call: Option<Call>): string {
    if call.None? then "" else "(" + call.value.name + OffsetText(call.value.offset) + ")"
  }

  function AddressText(address: Option<nat>): string {
    if address.None? then "" else " [" + HexText(address.value) + "]"
  }

  function Print(l: Line): string {
    l.moduleName + CallText(l.call) + AddressText(l.address)
  }

  predicate IsTrimmed(s: string) {
    s == "" || (!Space(s[0]) && !Space(s[|s| - 1]))
  }

  // No delimiter in a name; a module may hold a +.
  predicate Plain(s: string, plusAllowed: bool) {
    forall i :: 0 <= i < |s| ==>
      s[i] != '(' && s[i] != ')' && s[i] != '[' && s[i] != ']' && (s[i] == '+' ==> plusAllowed)
  }

  predicate Printable(l: Line) {
    && Plain(l.moduleName, true)
    && (l.call.Some? ==> Plain(l.call.value.name, false))
    && (l.call.Some? && l.call.value.offset.Some? ==> l.call.value.offset.value < TWO_TO_THE_64)
    && (l.address.Some? ==> l.address.value < TWO_TO_THE_64)
  }

  function CallMarks(call: Option<Call>, at: nat): Marks {
    if call.None? then UNMARKED
    else
      var c := call.value;
      UNMARKED.(open := at, plus := if c.offset.None? then NONE else at + 1 + |c.name|,
                close := at + 1 + |c.name| + |OffsetText(c.offset)|)
  }

  function LineMarks(l: Line): Marks {
    var m, at := CallMarks(l.call, |l.moduleName|), |l.moduleName| + |CallText(l.call)|;
    if l.address.None? then m else m.(openSquare := at + 1, closeSquare := at + 2 + |HexText(l.address.value)|)
  }

  // ---------- parsing undoes printing ----------

  lemma {:induction false} DigitsOfHex(n: nat)
    ensures Digits(Hex(n)) == Some(n)
    ensures Plain(Hex(n), false) && forall i :: 0 <= i < |Hex(n)| ==> !Space(Hex(n)[i])
  {
    if n < 16 {
      DigitOfHex(n);
      assert Hex(n)[..0] == "";
    } else {
      DigitsOfHex(n / 16);
      DigitOfHex(n % 16);
      assert Hex(n)[..|Hex(n)| - 1] == Hex(n / 16) && Hex(n)[|Hex(n)| - 1] == HexDigit(n % 16);
    }
  }

  lemma DigitOfHex(d: nat)
    requires d < 16
    ensures DigitValue(HexDigit(d)) == Some(d) && !Space(HexDigit(d)) && Plain([HexDigit(d)], false)
  {
  }

  lemma NumberOfHexText(n: nat)
    requires n < TWO_TO_THE_64
    ensures Number(HexText(n)) == Some(n) && Trimmed(HexText(n)) == HexText(n) && Plain(HexText(n), false)
  {
    DigitsOfHex(n);
    assert HexText(n)[2..] == Hex(n);
  }

  // Trimming stops exactly at texts without white space at their ends.
  lemma {:induction false} TrimmedIs(s: string)
    ensures IsTrimmed(Trimmed(s)) && |Trimmed(s)| <= |s| && (Trimmed(s) == s <==> IsTrimmed(s))
    decreases |s|
  {
    if s != "" && Space(s[0]) {
      TrimmedIs(s[1..]);
    } else if s != "" && Space(s[|s| - 1]) {
      TrimmedIs(s[..|s| - 1]);
    }
  }

  // A space at the end makes no difference.
  lemma {:induction false} TrimmedSpace(s: string)
    ensures Trimmed(s + " ") == Trimmed(s)
    decreases |s|
  {
    if s == "" {
      assert "" + " " == " " && " "[1..] == "";
    } else if Space(s[0]) {
      assert (s + " ")[1..] == s[1..] + " " && (s + " ")[0] == s[0];
      TrimmedSpace(s[1..]);
    } else {
      assert (s + " ")[..|s|] == s && (s + " ")[0] == s[0];
    }
  }

  lemma {:induction false} ScanConcat(m: Option<Marks>, s: string, t: string, at: nat)
    ensures Scan(m, s + t, at) == Scan(Scan(m, s, at), t, at + |s|)
    decreases |t|
  {
    if t == "" {
      assert s + t == s;
    } else {
      assert (s + t)[..|s + t| - 1] == s + t[..|t| - 1];
      ScanConcat(m, s, t[..|t| - 1], at);
    }
  }

  lemma {:induction false} ScanPlain(m: Marks, s: string, at: nat)
    requires Plain(s, m.open == NONE)
    ensures Scan(Some(m), s, at) == Some(m)
    decreases |s|
  {
    if s != "" { ScanPlain(m, s[..|s| - 1], at); }
  }

  lemma ScanOne(m: Marks, c: char, at: nat)
    ensures Scan(Some(m), [c], at) == Step(m, c, at)
  {
    assert [c][..0] == [];
  }

  lemma ScanOffset(m: Marks, offset: Option<nat>, at: nat)
    requires m.open != NONE && m == UNMARKED.(open := m.open)
    requires offset.Some? ==> offset.value < TWO_TO_THE_64
    ensures Scan(Some(m), OffsetText(offset), at) == Some(m.(plus := if offset.None? then NONE else at))
  {
    if offset.Some? {
      NumberOfHexText(offset.value);
      ScanConcat(Some(m), "+", HexText(offset.value), at);
      ScanOne(m, '+', at);
      ScanPlain(m.(plus := at), HexText(offset.value), at + 1);
    }
  }

  lemma ScanCall(call: Option<Call>, at: nat)
    requires call.Some? ==> Plain(call.value.name, false)
    requires call.Some? && call.value.offset.Some? ==> call.value.offset.value < TWO_TO_THE_64
    ensures Scan(Some(UNMARKED), CallText(call), at) == Some(CallMarks(call, at))
  {
    if call.Some? {
      var name, offset := call.value.name, call.value.offset;
      var m := UNMARKED.(open := at);
      ScanConcat(Some(UNMARKED), "(" + name + OffsetText(offset), ")", at);
      ScanConcat(Some(UNMARKED), "(" + name, OffsetText(offset), at);
      ScanConcat(Some(UNMARKED), "(", name, at);
      ScanOne(UNMARKED, '(', at);
      ScanPlain(m, name, at + 1);
      ScanOffset(m, offset, at + 1 + |name|);
      ScanOne(m.(plus := if offset.None? then NONE else at + 1 + |name|), ')', at + 1 + |name| + |OffsetText(offset)|);
    }
  }

  lemma ScanAddress(m: Marks, address: Option<nat>, at: nat)
    requires m.openSquare == NONE && m.closeSquare == NONE && (address.Some? ==> address.value < TWO_TO_THE_64)
    ensures Scan(Some(m), AddressText(address), at)
         == Some(if address.None? then m
                 else m.(openSquare := at + 1, closeSquare := at + 2 + |HexText(address.value)|))
  {
    if address.Some? {
      NumberOfHexText(address.value);
      ScanSquare(m, HexText(address.value), at);
    }
  }

  lemma ScanSquare(m: Marks, t: string, at: nat)
    requires m.openSquare == NONE && m.closeSquare == NONE && Plain(t, false)
    ensures Scan(Some(m), " [" + t + "]", at) == Some(m.(openSquare := at + 1, closeSquare := at + 2 + |t|))
  {
    assert " [" == " " + "[";
    ScanConcat(Some(m), " [" + t, "]", at);
    ScanConcat(Some(m), " [", t, at);
    ScanConcat(Some(m), " ", "[", at);
    ScanOne(m, ' ', at);
    ScanOne(m, '[', at + 1);
    ScanPlainInside(m.(openSquare := at + 1), t, at + 2);
    ScanOne(m.(openSquare := at + 1), ']', at + 2 + |t|);
  }

  lemma {:induction false} ScanPlainInside(m: Marks, s: string, at: nat)
    requires Plain(s, false)
    ensures Scan(Some(m), s, at) == Some(m)
    decreases |s|
  {
    if s != "" { ScanPlainInside(m, s[..|s| - 1], at); }
  }

  lemma ScanThrough(m: Option<Marks>, s: string, t: string, u: string)
    ensures Scan(m, s + t + u, 0) == Scan(Scan(Scan(m, s, 0), t, |s|), u, |s| + |t|)
  {
    ScanConcat(m, s + t, u, 0);
    ScanConcat(m, s, t, 0);
  }

  lemma ScanLine(l: Line)
    requires Printable(l)
    ensures Scan(Some(UNMARKED), Print(l), 0) == Some(LineMarks(l))
  {
    ScanThrough(Some(UNMARKED), l.moduleName, CallText(l.call), AddressText(l.address));
    ScanPlain(UNMARKED, l.moduleName, 0);
    ScanCall(l.call, |l.moduleName|);
    ScanAddress(CallMarks(l.call, |l.moduleName|), l.address, |l.moduleName| + |CallText(l.call)|);
  }

  lemma TextBetween(s: string, m: Marks, mark: int, before: string, piece: string, after: string)
    requires Within(m, |s|) && NONE < mark < |s| && s == before + (piece + after)
    requires mark + 1 == |before| && Next(m, mark + 1, |s|) == |before| + |piece|
    ensures TextAfter(s, m, mark) == Trimmed(piece)
  {
    assert s[|before|..|before| + |piece|] == piece;
  }

  lemma ModuleField(l: Line)
    requires Printable(l) && Placed(LineMarks(l), |Print(l)|)
    ensures Trimmed(Field(Print(l), LineMarks(l), 0)) == Trimmed(l.moduleName)
  {
    var s := Print(l);
    TrimmedSpace(l.moduleName);
    if l.call.Some? {
      assert s[..|l.moduleName|] == l.moduleName;
    } else if l.address.Some? {
      assert s[..|l.moduleName| + 1] == l.moduleName + " ";
    } else {
      assert s[0..|s|] == l.moduleName;
    }
  }

  lemma Regroup(a: string, b: string, c: string, d: string, e: string)
    ensures a + ("(" + b + c + ")") + e == (a + "(") + (b + (c + ")" + e))
    ensures c == "+" + d ==> a + ("(" + b + c + ")") + e == (a + "(" + b + "+") + (d + (")" + e))
  {
  }

  lemma NameField(l: Line)
    requires Printable(l) && Placed(LineMarks(l), |Print(l)|) && l.call.Some?
    ensures TextAfter(Print(l), LineMarks(l), LineMarks(l).open) == Trimmed(l.call.value.name)
  {
    var name, offset, address := l.call.value.name, OffsetText(l.call.value.offset), AddressText(l.address);
    Regroup(l.moduleName, name, offset, "", address);
    TextBetween(Print(l), LineMarks(l), LineMarks(l).open, l.moduleName + "(", name, offset + ")" + address);
  }

  lemma OffsetField(l: Line)
    requires Printable(l) && Placed(LineMarks(l), |Print(l)|) && l.call.Some? && l.call.value.offset.Some?
    ensures TextAfter(Print(l), LineMarks(l), LineMarks(l).plus) == HexText(l.call.value.offset.value)
  {
    var t := HexText(l.call.value.offset.value);
    var name, offset, address := l.call.value.name, OffsetText(l.call.value.offset), AddressText(l.address);
    Regroup(l.moduleName, name, offset, t, address);
    NumberOfHexText(l.call.value.offset.value);
    TextBetween(Print(l), LineMarks(l), LineMarks(l).plus, l.moduleName + "(" + name + "+", t, ")" + address);
  }

  lemma AddressField(l: Line)
    requires Printable(l) && Placed(LineMarks(l), |Print(l)|) && l.address.Some?
    ensures TextAfter(Print(l), LineMarks(l), LineMarks(l).openSquare) == HexText(l.address.value)
  {
    var t, front := HexText(l.address.value), l.moduleName + CallText(l.call);
    assert front + (" [" + t + "]") == (front + " [") + (t + "]");
    NumberOfHexText(l.address.value);
    TextBetween(Print(l), LineMarks(l), LineMarks(l).openSquare, front + " [", t, "]");
  }

  // The function's name as the parser returns it.
  function NameOf(l: Line, demangle: string -> string): string {
    if l.call.None? then "" else Readable(demangle, Trimmed(l.call.value.name))
  }

  function OffsetOf(l: Line): nat {
    if l.call.None? || l.call.value.offset.None? then 0 else l.call.value.offset.value
  }

  function AddressOf(l: Line): nat {
    if l.address.None? then 0 else l.address.value
  }

  // A line that says nothing: no module, no function, no number.
  predicate Blank(l: Line, demangle: string -> string) {
    Trimmed(l.moduleName) == "" && NameOf(l, demangle) == "" && OffsetOf(l) == 0 && AddressOf(l) == 0
  }

  // Parsing a printed line gives its fields back without the white space around the names, with or without each
  // optional part; only a blank line is refused.
  lemma ParsingUndoesPrinting(l: Line, demangle: string -> string)
    requires Printable(l)
    ensures Parse(Print(l), demangle) ==
            if Blank(l, demangle) then None
            else Some(StackFrame(Trimmed(l.moduleName), NameOf(l, demangle), OffsetOf(l), AddressOf(l)))
  {
    ScanLine(l);
    ScanPlaces(Print(l), LineMarks(l));
    ModuleField(l);
    if l.call.Some? {
      NameField(l);
      if l.call.value.offset.Some? {
        OffsetField(l);
        NumberOfHexText(l.call.value.offset.value);
      }
    }
    if l.address.Some? {
      AddressField(l);
      NumberOfHexText(l.address.value);
    }
  }

  // So the very names come back exactly if they have no white space at their ends, and the line says something.
  lemma FieldsComeBackExactly(l: Line)
    requires Printable(l)
    ensures var name := if l.call.None? then "" else l.call.value.name;
            Parse(Print(l), n => "") == Some(StackFrame(l.moduleName, name, OffsetOf(l), AddressOf(l))) <==>
            && IsTrimmed(l.moduleName) && IsTrimmed(name)
            && !(l.moduleName == "" && name == "" && OffsetOf(l) == 0 && AddressOf(l) == 0)
  {
    ParsingUndoesPrinting(l, n => "");
    TrimmedIs(l.moduleName);
    if l.call.Some? { TrimmedIs(l.call.value.name); }
  }
}
