/** A Base inside a fence of a note: reading its source out of the quoted and indented
    lines, and writing a new source back in their place. Positions count the units of
    the text, whatever they are. */
module InlineBase {
  import opened Platforms

  datatype Request = Request(documentText: string, from: nat, end: nat, contentFrom: nat, contentTo: nat, source: string)

  // ----- characters

  predicate Blank(c: char) { c == ' ' || c == '\t' }

  predicate Digit(c: char) { '0' <= c <= '9' }

  predicate Bullet(c: char) { c == '-' || c == '+' || c == '*' }

  datatype Kind = Blanks | Digits | Only(c: char)

  predicate Of(c: char, kind: Kind) {
    match kind
    case Blanks => Blank(c)
    case Digits => Digit(c)
    case Only(only) => c == only
  }

  /** How many characters of the kind there are from a position on. */
  function Leading(s: string, from: nat, kind: Kind): (n: nat)
    requires from <= |s|
    ensures from + n <= |s|
    decreases |s| - from
  {
    if from == |s| || !Of(s[from], kind) then 0 else 1 + Leading(s, from + 1, kind)
  }

  /** Where the text from `start` to `end` ends without the blanks at its end. */
  function TrimEnd(s: string, start: nat, end: nat): (e: nat)
    requires start <= end <= |s|
    ensures start <= e <= end
    decreases end
  {
    if end == start || !Blank(s[end - 1]) then end else TrimEnd(s, start, end - 1)
  }

  function Count(s: string, c: char): nat { if s == "" then 0 else (if s[0] == c then 1 else 0) + Count(s[1..], c) }

  // ----- fences

  /** A run of at least three ticks or tildes, and what comes before it. */
  datatype Fence = Fence(prefix: string, tick: char, count: nat)

  function Trailing(s: string, start: nat, end: nat, c: char): (n: nat)
    requires start <= end <= |s|
    ensures n <= end - start
    decreases end
  {
    if end == start || s[end - 1] != c then 0 else 1 + Trailing(s, start, end - 1, c)
  }

  /** The fence that the text from `start` to `end` ends with. */
  function EndingFence(s: string, start: nat, end: nat): (fence: Option<Fence>)
    requires start <= end <= |s|
  {
    if end == start || (s[end - 1] != '`' && s[end - 1] != '~') then None
    else
      var n := Trailing(s, start, end, s[end - 1]);
      if n < 3 || exists i :: start <= i < end - n && s[i] == '\r' then None
      else Some(Fence(s[start..end - n], s[end - 1], n))
  }

  function WithoutReturn(s: string): string { if s != "" && s[|s| - 1] == '\r' then s[..|s| - 1] else s }

  /** The end of a line without its carriage return. */
  function LineEnd(s: string, start: nat, end: nat): (e: nat)
    requires start <= end <= |s|
    ensures start <= e <= end
  {
    if end > start && s[end - 1] == '\r' then end - 1 else end
  }

  function FirstNewline(s: string): (n: nat)
    ensures n <= |s| && (forall i :: 0 <= i < n ==> s[i] != '\n') && (n < |s| ==> s[n] == '\n')
  {
    if s == "" || s[0] == '\n' then 0 else 1 + FirstNewline(s[1..])
  }

  function LastLine(s: string): (start: nat)
    ensures start <= |s| && (forall i :: start <= i < |s| ==> s[i] != '\n') && (start > 0 ==> s[start - 1] == '\n')
  {
    if s == "" || s[|s| - 1] == '\n' then |s| else LastLine(s[..|s| - 1])
  }

  /** The opening line, when its fence is followed by the word `base` alone. */
  function OpeningFence(block: string): (fence: Option<Fence>) {
    var n := FirstNewline(block);
    if n == |block| then None
    else
      var e := TrimEnd(block, 0, LineEnd(block, 0, n));
      if e < 4 || !Base(block, e - 4) then None else EndingFence(block, 0, TrimEnd(block, 0, e - 4))
  }

  predicate Base(s: string, at: nat)
    requires at + 4 <= |s|
  {
    s[at] == 'b' && s[at + 1] == 'a' && s[at + 2] == 's' && s[at + 3] == 'e'
  }

  function ClosingFence(block: string): (fence: Option<Fence>) {
    var start := LastLine(block);
    EndingFence(block, start, TrimEnd(block, start, LineEnd(block, start, |block|)))
  }

  // ----- prefixes of quotes and list items

  /** One quote mark, one list marker, or blank space. */
  predicate Piece(s: string, from: nat, end: nat)
    requires from < end <= |s|
  {
    var w, h := Leading(s, from, Blanks), MarkerHead(s, from);
    || (forall i :: from <= i < end ==> Blank(s[i]))
    || (from + w < end && s[from + w] == '>' && (end == from + w + 1 || (end == from + w + 2 && Blank(s[from + w + 1]))))
    || (h > 0 && from + h < end <= from + h + Leading(s, from + h, Blanks))
  }

  /** The text from a position on, cut into pieces. */
  predicate Cuts(s: string, from: nat, cuts: seq<nat>)
    decreases |cuts|
  {
    if cuts == [] then from == |s| else from < cuts[0] <= |s| && Piece(s, from, cuts[0]) && Cuts(s, cuts[0], cuts[1..])
  }

  /** A sequence of pieces, however it divides. */
  ghost predicate Pieces(s: string) { exists cuts :: Cuts(s, 0, cuts) }

  /** The same, read from the left. */
  predicate Prefix(s: string, from: nat)
    requires from <= |s|
    decreases |s| - from
  {
    if from == |s| then true
    else if Blank(s[from]) || s[from] == '>' then Prefix(s, from + 1)
    else MarkerLength(s, from) > 0 && Prefix(s, from + MarkerLength(s, from))
  }

  /** The length of a list marker alone, or 0. */
  function MarkerHead(s: string, from: nat): (n: nat)
    requires from <= |s|
    ensures from + n <= |s|
  {
    if from == |s| then 0
    else if Bullet(s[from]) then 1
    else
      var d := Leading(s, from, Digits);
      if d == 0 || from + d == |s| || (s[from + d] != '.' && s[from + d] != ')') then 0 else d + 1
  }

  /** The length of a list marker with the blanks after it, or 0. */
  function MarkerLength(s: string, from: nat): (n: nat)
    requires from <= |s|
    ensures from + n <= |s|
  {
    var h := MarkerHead(s, from);
    if h == 0 || Leading(s, from + h, Blanks) == 0 then 0 else h + Leading(s, from + h, Blanks)
  }

  function Spaces(n: nat): (s: string)
    ensures |s| == n && forall i :: 0 <= i < n ==> s[i] == ' '
  {
    seq(n, _ => ' ')
  }

  /** The prefix of the lines after the first: list markers become spaces. */
  function Continuation(prefix: string, from: nat): (c: string)
    requires from <= |prefix|
    decreases |prefix| - from
  {
    if from == |prefix| then ""
    else
      var n := MarkerLength(prefix, from);
      if n > 0 then Spaces(n) + Continuation(prefix, from + n)
      else [prefix[from]] + Continuation(prefix, from + 1)
  }

  function Marks(s: string, from: nat): string
    requires from <= |s|
    decreases |s| - from
  {
    if from == |s| then "" else (if Blank(s[from]) then "" else [s[from]]) + Marks(s, from + 1)
  }

  /** The blanks a content line has before its own text, after the last quote mark. */
  function Padding(c: string): nat {
    var after := |c| - LastQuote(c);
    if Count(c, '>') == 0 then |c| else if after >= 1 then after - 1 else 0
  }

  /** The position after the last quote mark. */
  function LastQuote(c: string): (n: nat)
    ensures n <= |c| && (n > 0 ==> c[n - 1] == '>') && forall i :: n <= i < |c| ==> c[i] != '>'
  {
    if c == "" || c[|c| - 1] == '>' then |c| else LastQuote(c[..|c| - 1])
  }

  // ----- lines

  function Unix(s: string): string {
    if s == "" then ""
    else if s[0] == '\r' && |s| > 1 && s[1] == '\n' then ['\n'] + Unix(s[2..])
    else [s[0]] + Unix(s[1..])
  }

  function Split(s: string): (lines: seq<string>)
    ensures lines != [] && forall i :: 0 <= i < |lines| ==> '\n' !in lines[i]
  {
    if s == "" then [""]
    else
      var rest := Split(s[1..]);
      if s[0] == '\n' then [""] + rest else [[s[0]] + rest[0]] + rest[1..]
  }

  function Join(lines: seq<string>): string {
    if lines == [] then "" else if |lines| == 1 then lines[0] else lines[0] + ("\n" + Join(lines[1..]))
  }

  /** Takes up to `quotes` quote marks off a line; `left` is how many it did not find. */
  function Unquote(line: string, quotes: nat): (r: (string, nat))
    ensures r.1 <= quotes
    decreases quotes
  {
    var w := Leading(line, 0, Blanks);
    if quotes == 0 || w == |line| || line[w] != '>' then (line, quotes)
    else
      var end := if w + 1 < |line| && Blank(line[w + 1]) then w + 2 else w + 1;
      Unquote(line[end..], quotes - 1)
  }

  function Min(a: nat, b: nat): nat { if a < b then a else b }

  function ReadLine(line: string, quotes: nat, padding: nat): Option<string> {
    var (remainder, left) := Unquote(line, quotes);
    if left == 0 then Some(remainder[Min(padding, Leading(remainder, 0, Blanks))..])
    else if forall i :: 0 <= i < |line| ==> Blank(line[i]) || line[i] == '>' then Some("")
    else None
  }

  /** The content of the lines; an empty last line is what follows the last break. */
  function ReadLines(lines: seq<string>, quotes: nat, padding: nat): Option<seq<string>> {
    if lines == [] then Some([])
    else if lines == [""] then Some([""])
    else
      var line := ReadLine(lines[0], quotes, padding);
      var rest := ReadLines(lines[1..], quotes, padding);
      if line.None? || rest.None? then None else Some([line.value] + rest.value)
  }

  /** Whether the two lines fence a Base. */
  predicate Fenced(opening: Fence, closing: Fence) {
    && Prefix(opening.prefix, 0)
    && closing.tick == opening.tick && closing.count >= opening.count
    && Marks(closing.prefix, 0) == Marks(Continuation(opening.prefix, 0), 0)
  }

  /** Where the content of a block begins and ends, and how its lines begin. */
  datatype Frame = Frame(first: nat, last: nat, continuation: string)

  function FrameOf(block: string): (frame: Option<Frame>) {
    var opening, closing := OpeningFence(block), ClosingFence(block);
    if opening.None? || closing.None? || !Fenced(opening.value, closing.value) then None
    else
      Some(Frame(FirstNewline(block) + 1, LastLine(block), Continuation(opening.value.prefix, 0)))
  }

  function Content(inner: string, continuation: string): Option<string> {
    var content := ReadLines(Split(Unix(inner)), Count(continuation, '>'), Padding(continuation));
    if content.None? then None else Some(Join(content.value))
  }

  /** Whether a position is the first of its line. */
  predicate StartsLine(text: string, at: int) { at == 0 || (0 < at <= |text| && text[at - 1] == '\n') }

  /** The occurrence between two positions, for any way to tell fences and read lines. */
  function OccurrenceBy(text: string, from: int, end: int, frames: string -> Option<Frame>, contents: (string, string) -> Option<string>): Option<Request> {
    if from < 0 || end > |text| || end < from then None
    else if !StartsLine(text, from) then None
    else
      var block := text[from..end];
      match frames(block)
      case None => None
      case Some(frame) =>
        if frame.last < frame.first || frame.last > |block| then None
        else
          match contents(block[frame.first..frame.last], frame.continuation)
          case None => None
          case Some(source) => Some(Request(text, from, end, from + frame.first, from + frame.last, source))
  }

  function Occurrence(text: string, from: int, end: int): (r: Option<Request>) {
    OccurrenceBy(text, from, end, FrameOf, Content)
  }

  // ----- writing

  datatype Written = Done(text: string) | NoteChanged | OccurrenceChanged | ClosesFence

  /** The first run of three or more ticks or tildes on the line from a position on. */
  function FirstFence(s: string, from: nat): Option<Fence>
    requires from <= |s|
    decreases |s| - from
  {
    if from == |s| || s[from] == '\r' || s[from] == '\n' then None
    else
      var n := Leading(s, from, Only(s[from]));
      if (s[from] == '`' || s[from] == '~') && n >= 3 then Some(Fence("", s[from], n))
      else
        match FirstFence(s, from + 1)
        case None => None
        case Some(fence) => Some(fence.(prefix := [s[from]] + fence.prefix))
  }

  predicate Closes(line: string, tick: char, count: nat) {
    var indent := Leading(line, 0, Only(' '));
    var run := Leading(line, indent, Only(tick));
    indent <= 3 && run >= count && run >= 1 && forall i :: indent + run <= i < |line| ==> Blank(line[i])
  }

  function Break(opening: string): string { if |opening| >= 2 && opening[|opening| - 2..] == "\r\n" then "\r\n" else "\n" }

  function WithoutNewline(s: string): string { if s != "" && s[|s| - 1] == '\n' then s[..|s| - 1] else s }

  function WriteLines(lines: seq<string>, continuation: string, eol: string): string {
    if lines == [] then "" else continuation + lines[0] + (eol + WriteLines(lines[1..], continuation, eol))
  }

  function Body(normalized: string, continuation: string, eol: string): string {
    if normalized == "" then "" else WriteLines(Split(WithoutNewline(normalized)), continuation, eol)
  }

  /** Writing a new source, for any way to tell fences and read lines. */
  function ReplaceBy(text: string, request: Request, source: string, frames: string -> Option<Frame>, contents: (string, string) -> Option<string>): Written
    requires Opens(frames)
  {
    if text != request.documentText then NoteChanged
    else
      var current := OccurrenceBy(text, request.from, request.end, frames, contents);
      if current.None? || current.value.contentFrom != request.contentFrom || current.value.contentTo != request.contentTo
         || current.value.source != request.source then OccurrenceChanged
      else if source == current.value.source then Done(text)
      else
        OpensBy(text, request.from, request.end, frames, contents);
        OccurrenceHas(text, request.from, request.end, frames, contents);
        var opening := FirstFence(text, request.from).value;
        var normalized := Unix(source);
        if exists i :: 0 <= i < |Split(normalized)| && Closes(Split(normalized)[i], opening.tick, opening.count) then ClosesFence
        else
          var eol := Break(text[request.from..request.contentFrom]);
          Done(text[..request.contentFrom] + Body(normalized, Continuation(opening.prefix, 0), eol) + text[request.contentTo..])
  }

  function Replace(text: string, request: Request, source: string): Written {
    FrameOfOpens();
    ReplaceBy(text, request, source, FrameOf, Content)
  }

  // ----- the prefix

  predicate Plain(c: string) { forall i :: 0 <= i < |c| ==> Blank(c[i]) || c[i] == '>' }

  predicate PrefixChar(c: char) { Blank(c) || c == '>' || Bullet(c) || Digit(c) || c == '.' || c == ')' }

  lemma {:induction false} MarkerChars(s: string, from: nat)
    requires from <= |s|
    ensures forall i :: from <= i < from + MarkerLength(s, from) ==> PrefixChar(s[i])
  {
    LeadingHas(s, from, Digits);
    LeadingHas(s, from + MarkerHead(s, from), Blanks);
  }

  lemma {:induction false} PrefixChars(s: string, from: nat)
    requires from <= |s| && Prefix(s, from)
    ensures forall i :: from <= i < |s| ==> PrefixChar(s[i])
    decreases |s| - from
  {
    if from < |s| {
      MarkerChars(s, from);
      PrefixChars(s, if Blank(s[from]) || s[from] == '>' then from + 1 else from + MarkerLength(s, from));
    }
  }

  lemma {:induction false} LeadingHas(s: string, from: nat, kind: Kind)
    requires from <= |s|
    ensures var n := Leading(s, from, kind);
            (forall i :: from <= i < from + n ==> Of(s[i], kind)) && (from + n < |s| ==> !Of(s[from + n], kind))
    decreases |s| - from
  {
    if from < |s| && Of(s[from], kind) { LeadingHas(s, from + 1, kind); }
  }

  lemma {:induction false} LeadingIs(s: string, from: nat, kind: Kind, n: nat)
    requires from + n <= |s| && (forall i :: from <= i < from + n ==> Of(s[i], kind)) && (from + n < |s| ==> !Of(s[from + n], kind))
    ensures Leading(s, from, kind) == n
    decreases n
  {
    if n > 0 { LeadingIs(s, from + 1, kind, n - 1); }
  }

  /** What is left of a piece without its first blank or quote mark. */
  lemma {:induction false} PieceShrinks(s: string, from: nat, end: nat)
    requires from + 1 < end <= |s| && Piece(s, from, end) && (Blank(s[from]) || s[from] == '>')
    ensures Piece(s, from + 1, end)
  {
    if s[from] == '>' && !(forall i :: from <= i < end ==> Blank(s[i])) { assert Leading(s, from, Blanks) == 0; }
  }

  lemma {:induction false} CutsShrink(s: string, from: nat, cuts: seq<nat>) returns (less: seq<nat>)
    requires from < |s| && Cuts(s, from, cuts) && (Blank(s[from]) || s[from] == '>')
    ensures Cuts(s, from + 1, less)
  {
    if cuts[0] > from + 1 {
      PieceShrinks(s, from, cuts[0]);
      less := cuts;
    } else {
      less := cuts[1..];
    }
  }

  lemma {:induction false} CutsSkip(s: string, from: nat, n: nat, cuts: seq<nat>) returns (less: seq<nat>)
    requires from + n <= |s| && Cuts(s, from, cuts) && forall i :: from <= i < from + n ==> Blank(s[i])
    ensures Cuts(s, from + n, less)
    decreases n
  {
    less := cuts;
    if n > 0 {
      less := CutsShrink(s, from, cuts);
      less := CutsSkip(s, from + 1, n - 1, less);
    }
  }

  lemma {:induction false} PieceIsMarker(s: string, from: nat, end: nat)
    requires from < end <= |s| && Piece(s, from, end) && !Blank(s[from]) && s[from] != '>'
    ensures 0 < MarkerLength(s, from) && end <= from + MarkerLength(s, from)
    ensures forall i :: end <= i < from + MarkerLength(s, from) ==> Blank(s[i])
  {
    assert Leading(s, from, Blanks) == 0;
    LeadingHas(s, from + MarkerHead(s, from), Blanks);
  }

  lemma {:induction false} CutsMarker(s: string, from: nat, cuts: seq<nat>) returns (less: seq<nat>)
    requires from < |s| && Cuts(s, from, cuts) && !Blank(s[from]) && s[from] != '>'
    ensures MarkerLength(s, from) > 0 && Cuts(s, from + MarkerLength(s, from), less)
  {
    PieceIsMarker(s, from, cuts[0]);
    less := CutsSkip(s, cuts[0], from + MarkerLength(s, from) - cuts[0], cuts[1..]);
  }

  lemma {:induction false} CutsArePrefix(s: string, from: nat, cuts: seq<nat>)
    requires from <= |s| && Cuts(s, from, cuts)
    ensures Prefix(s, from)
    decreases |s| - from
  {
    if from < |s| {
      if Blank(s[from]) || s[from] == '>' {
        var less := CutsShrink(s, from, cuts);
        CutsArePrefix(s, from + 1, less);
      } else {
        var less := CutsMarker(s, from, cuts);
        CutsArePrefix(s, from + MarkerLength(s, from), less);
      }
    }
  }

  lemma {:induction false} OnePiece(s: string, from: nat)
    requires from < |s|
    ensures Blank(s[from]) || s[from] == '>' ==> Piece(s, from, from + 1)
    ensures MarkerLength(s, from) > 0 ==> Piece(s, from, from + MarkerLength(s, from))
  {
    if s[from] == '>' { assert Leading(s, from, Blanks) == 0; }
  }

  lemma {:induction false} PrefixCuts(s: string, from: nat) returns (cuts: seq<nat>)
    requires from <= |s| && Prefix(s, from)
    ensures Cuts(s, from, cuts)
    decreases |s| - from
  {
    cuts := [];
    if from < |s| {
      var n := if Blank(s[from]) || s[from] == '>' then 1 else MarkerLength(s, from);
      OnePiece(s, from);
      cuts := PrefixCuts(s, from + n);
      CutsMore(s, from, from + n, cuts);
      cuts := [from + n] + cuts;
    }
  }

  lemma {:induction false} CutsMore(s: string, from: nat, k: nat, cuts: seq<nat>)
    requires from < k <= |s| && Piece(s, from, k) && Cuts(s, k, cuts)
    ensures Cuts(s, from, [k] + cuts)
  {
    assert ([k] + cuts)[1..] == cuts;
  }

  /** Reading from the left accepts exactly the sequences of pieces. */
  lemma {:induction false} PrefixIsPieces(s: string)
    ensures Prefix(s, 0) <==> Pieces(s)
  {
    if Prefix(s, 0) { var cuts := PrefixCuts(s, 0); }
    if cuts :| Cuts(s, 0, cuts) { CutsArePrefix(s, 0, cuts); }
  }

  lemma {:induction false} PlainJoin(a: string, b: string)
    requires Plain(a) && Plain(b)
    ensures Plain(a + b)
  {
  }

  /** Lines after the first begin with blanks and quote marks only. */
  lemma {:induction false} ContinuationPlain(prefix: string, from: nat)
    requires from <= |prefix| && Prefix(prefix, from)
    ensures Plain(Continuation(prefix, from))
    decreases |prefix| - from
  {
    if from < |prefix| {
      var n := MarkerLength(prefix, from);
      if Blank(prefix[from]) || prefix[from] == '>' {
        assert Leading(prefix, from, Digits) == 0;
        ContinuationPlain(prefix, from + 1);
        PlainJoin([prefix[from]], Continuation(prefix, from + 1));
      } else {
        ContinuationPlain(prefix, from + n);
        PlainJoin(Spaces(n), Continuation(prefix, from + n));
      }
    }
  }

  // ----- the opening fence, found again without its line

  lemma {:induction false} FirstFenceAfter(s: string, from: nat, start: nat, size: nat, tick: char)
    requires from <= start && start + 3 <= size < |s| && (tick == '`' || tick == '~') && s[size] != tick
    requires forall i :: from <= i < start ==> PrefixChar(s[i])
    requires forall i :: start <= i < size ==> s[i] == tick
    ensures FirstFence(s, from) == Some(Fence(s[from..start], tick, size - start))
    decreases start - from
  {
    if from == start {
      LeadingIs(s, from, Only(tick), size - start);
    } else {
      assert PrefixChar(s[from]);
      FirstFenceAfter(s, from + 1, start, size, tick);
      assert [s[from]] + s[from + 1..start] == s[from..start];
    }
  }

  lemma {:induction false} TrimmedBlank(s: string, start: nat, end: nat)
    requires start <= end <= |s|
    ensures TrimEnd(s, start, end) < end ==> Blank(s[TrimEnd(s, start, end)])
    decreases end
  {
    if end > start && Blank(s[end - 1]) { TrimmedBlank(s, start, end - 1); }
  }

  lemma {:induction false} TrailingRun(s: string, start: nat, end: nat, c: char)
    requires start <= end <= |s|
    ensures forall i :: end - Trailing(s, start, end, c) <= i < end ==> s[i] == c
    decreases end
  {
    if end > start && s[end - 1] == c { TrailingRun(s, start, end - 1, c); }
  }

  lemma {:induction false} OpeningParts(block: string)
    requires OpeningFence(block).Some?
    ensures var fence := OpeningFence(block).value;
            var size := |fence.prefix| + fence.count;
            size < |block| && block[size] != fence.tick && fence.prefix == block[..|fence.prefix|]
            && forall i :: |fence.prefix| <= i < size ==> block[i] == fence.tick
    ensures OpeningFence(block).value.tick == '`' || OpeningFence(block).value.tick == '~'
    ensures OpeningFence(block).value.count >= 3 && FirstNewline(block) < |block|
  {
    var n := FirstNewline(block);
    var e := TrimEnd(block, 0, LineEnd(block, 0, n));
    var mark := TrimEnd(block, 0, e - 4);
    var fence := OpeningFence(block).value;
    assert fence.count == Trailing(block, 0, mark, fence.tick);
    TrimmedBlank(block, 0, e - 4);
    TrailingRun(block, 0, mark, fence.tick);
    assert |fence.prefix| + fence.count == mark;
  }

  lemma {:induction false} FenceComesFirst(block: string, fence: Fence, text: string, from: nat)
    requires var size := |fence.prefix| + fence.count;
             size < |block| && block[size] != fence.tick && forall i :: |fence.prefix| <= i < size ==> block[i] == fence.tick
    requires fence.prefix == block[..|fence.prefix|] && forall i :: 0 <= i < |fence.prefix| ==> PrefixChar(fence.prefix[i])
    requires (fence.tick == '`' || fence.tick == '~') && fence.count >= 3
    requires from + |block| <= |text| && block == text[from..from + |block|]
    ensures FirstFence(text, from) == Some(fence)
  {
    var start, size := |fence.prefix|, |fence.prefix| + fence.count;
    assert text[from + size] == block[size];
    assert forall i :: from <= i < from + start ==> text[i] == fence.prefix[i - from];
    assert forall i :: from + start <= i < from + size ==> text[i] == block[i - from];
    FirstFenceAfter(text, from, from + start, from + size, fence.tick);
    assert text[from..from + start] == fence.prefix;
  }

  /** The first fence of the note from there on is the one the block opens with. */
  lemma {:induction false} OpeningComesFirst(block: string, fence: Fence, text: string, from: nat)
    requires OpeningFence(block) == Some(fence) && Prefix(fence.prefix, 0)
    requires from + |block| <= |text| && block == text[from..from + |block|]
    ensures FirstFence(text, from) == Some(fence)
  {
    OpeningParts(block);
    PrefixChars(fence.prefix, 0);
    FenceComesFirst(block, fence, text, from);
  }

  lemma {:induction false} FrameOpens(block: string)
    requires FrameOf(block).Some?
    ensures OpeningFence(block).Some? && Prefix(OpeningFence(block).value.prefix, 0)
    ensures FrameOf(block).value.continuation == Continuation(OpeningFence(block).value.prefix, 0)
  {
  }

  /** Every block that `frames` accepts begins with a first fence after a proper prefix. */
  ghost predicate Opens(frames: string -> Option<Frame>) {
    forall block, text, from: nat {:trigger frames(block), FirstFence(text, from)} ::
      frames(block).Some? && from + |block| <= |text| && block == text[from..from + |block|] ==>
        FirstFence(text, from).Some? && Prefix(FirstFence(text, from).value.prefix, 0)
  }

  /** The lines after the first fence from a position on begin with `c`. */
  ghost predicate Begins(text: string, from: nat, c: string) {
    from <= |text| && forall t: string {:trigger FirstFence(t, from)} :: t == text ==>
      FirstFence(t, from).Some? && c == Continuation(FirstFence(t, from).value.prefix, 0)
  }

  ghost predicate Continues(frames: string -> Option<Frame>) {
    forall block, text, from: nat, c {:trigger frames(block), Begins(text, from, c)} ::
      frames(block).Some? && from + |block| <= |text| && block == text[from..from + |block|] && Begins(text, from, c) ==>
        frames(block).value.continuation == c
  }

  lemma {:induction false} FrameOpensText(block: string, text: string, from: nat)
    requires FrameOf(block).Some? && from + |block| <= |text| && block == text[from..from + |block|]
    ensures FirstFence(text, from).Some? && Prefix(FirstFence(text, from).value.prefix, 0)
    ensures FrameOf(block).value.continuation == Continuation(FirstFence(text, from).value.prefix, 0)
  {
    FrameOpens(block);
    OpeningComesFirst(block, OpeningFence(block).value, text, from);
  }

  lemma {:induction false} FrameOfOpens()
    ensures Opens(FrameOf)
  {
    forall block, text, from: nat | FrameOf(block).Some? && from + |block| <= |text| && block == text[from..from + |block|]
      ensures FirstFence(text, from).Some? && Prefix(FirstFence(text, from).value.prefix, 0)
    {
      FrameOpensText(block, text, from);
    }
  }

  lemma {:induction false} FrameOfContinues()
    ensures Continues(FrameOf)
  {
    forall block, text, from: nat, c | FrameOf(block).Some? && from + |block| <= |text| && block == text[from..from + |block|] && Begins(text, from, c)
      ensures FrameOf(block).value.continuation == c
    {
      FrameOpensText(block, text, from);
    }
  }

  lemma {:induction false} OccurrenceHas(text: string, from: int, end: int, frames: string -> Option<Frame>, contents: (string, string) -> Option<string>)
    requires OccurrenceBy(text, from, end, frames, contents).Some?
    ensures 0 <= from <= end <= |text| && StartsLine(text, from) && frames(text[from..end]).Some?
    ensures frames(text[from..end]).value.first <= frames(text[from..end]).value.last <= end - from
    ensures var frame, found := frames(text[from..end]).value, OccurrenceBy(text, from, end, frames, contents).value;
            found.contentFrom == from + frame.first && found.contentTo == from + frame.last
  {
  }

  lemma {:induction false} OpensBy(text: string, from: int, end: int, frames: string -> Option<Frame>, contents: (string, string) -> Option<string>)
    requires OccurrenceBy(text, from, end, frames, contents).Some? && Opens(frames)
    ensures 0 <= from <= end <= |text| && FirstFence(text, from).Some? && Prefix(FirstFence(text, from).value.prefix, 0)
  {
    OccurrenceHas(text, from, end, frames, contents);
    var block := text[from..end];
    assert from + |block| == end;
  }

  // ----- splitting what was written

  function Clip(line: string, eol: string): string { if eol == "\n" then WithoutReturn(line) else line }

  lemma {:induction false} UnixLine(line: string, eol: string, rest: string)
    requires '\n' !in line && (eol == "\n" || eol == "\r\n")
    ensures Split(Unix(line + (eol + rest))) == [Clip(line, eol)] + Split(Unix(rest))
    decreases |line|
  {
    var s := line + (eol + rest);
    if line == "" {
      assert s == eol + rest;
      assert (eol + rest)[|eol|..] == rest;
      assert Unix(s) == ['\n'] + Unix(rest);
      assert (['\n'] + Unix(rest))[1..] == Unix(rest);
    } else if line == "\r" && eol == "\n" {
      assert s[2..] == rest;
      assert Unix(s) == ['\n'] + Unix(rest);
      assert (['\n'] + Unix(rest))[1..] == Unix(rest);
    } else {
      var tail := line[1..] + (eol + rest);
      assert s[1..] == tail && s[0] == line[0];
      UnixLine(line[1..], eol, rest);
      assert Unix(s) == [s[0]] + Unix(tail) by { if |line| > 1 { assert s[1] == line[1]; } else { assert s[1] == eol[0]; } }
      assert ([s[0]] + Unix(tail))[1..] == Unix(tail);
      assert s[0] != '\n' by { assert line[0] in line; }
      assert [line[0]] + Clip(line[1..], eol) == Clip(line, eol);
    }
  }

  /** The lines as they come out of the text again. */
  function Prefixed(lines: seq<string>, c: string, eol: string): seq<string> {
    if lines == [] then [] else [c + Clip(lines[0], eol)] + Prefixed(lines[1..], c, eol)
  }

  lemma {:induction false} PlainHas(c: string, line: string)
    requires Plain(c) && '\n' !in line
    ensures '\n' !in c + line && '\r' !in c
  {
  }

  lemma {:induction false} ClipPrefixed(c: string, line: string, eol: string)
    requires '\r' !in c
    ensures Clip(c + line, eol) == c + Clip(line, eol)
  {
    if line == "" { assert c + line == c; if c != "" { assert c[|c| - 1] in c; } }
    else { assert (c + line)[..|c + line| - 1] == c + line[..|line| - 1]; }
  }

  lemma {:induction false} WrittenSplits(lines: seq<string>, c: string, eol: string)
    requires Plain(c) && (eol == "\n" || eol == "\r\n")
    requires forall i :: 0 <= i < |lines| ==> '\n' !in lines[i]
    ensures Split(Unix(WriteLines(lines, c, eol))) == Prefixed(lines, c, eol) + [""]
  {
    if lines != [] {
      PlainHas(c, lines[0]);
      ClipPrefixed(c, lines[0], eol);
      UnixLine(c + lines[0], eol, WriteLines(lines[1..], c, eol));
      WrittenSplits(lines[1..], c, eol);
    }
  }

  // ----- reading one written line

  function Keep(line: string, c: string): string {
    if c != "" && c[|c| - 1] == '>' && line != "" && Blank(line[0]) then line[1..] else line
  }

  /** A line of the new source as it is read back. */
  function Seen(line: string, c: string, eol: string): string { Keep(Clip(line, eol), c) }

  lemma {:induction false} CountJoin(a: string, b: string, c: char)
    ensures Count(a + b, c) == Count(a, c) + Count(b, c)
  {
    if a == "" { assert a + b == b; }
    else {
      assert (a + b)[1..] == a[1..] + b;
      CountJoin(a[1..], b, c);
    }
  }

  lemma {:induction false} CountNone(s: string, c: char)
    ensures Count(s, c) == 0 <==> c !in s
  {
    if s != "" {
      CountNone(s[1..], c);
      assert s == [s[0]] + s[1..];
    }
  }

  lemma {:induction false} LastQuoteIs(c: string, n: nat)
    requires n <= |c| && (n > 0 ==> c[n - 1] == '>') && forall i :: n <= i < |c| ==> c[i] != '>'
    ensures LastQuote(c) == n
  {
  }

  /** What is left after all quote marks of the prefix are taken off. */
  function AfterQuotes(c: string, line: string): string {
    if LastQuote(c) < |c| then c[LastQuote(c) + 1..] + line else if line != "" && Blank(line[0]) then line[1..] else line
  }

  lemma {:induction false} UnquoteOne(c: string, line: string)
    requires Plain(c) && '>' in c
    ensures var w := Leading(c, 0, Blanks);
            w < |c| && c[w] == '>' && Leading(c + line, 0, Blanks) == w && Count(c[w + 1..], '>') == Count(c, '>') - 1
  {
    var w := Leading(c, 0, Blanks);
    LeadingHas(c, 0, Blanks);
    var i :| 0 <= i < |c| && c[i] == '>';
    assert w <= i;
    LeadingIs(c + line, 0, Blanks, w);
    assert c == c[..w] + (['>'] + c[w + 1..]);
    CountJoin(c[..w], ['>'] + c[w + 1..], '>');
    CountJoin(['>'], c[w + 1..], '>');
    CountNone(c[..w], '>');
  }

  lemma {:induction false} UnquoteAll(c: string, line: string)
    requires Plain(c) && '>' in c
    ensures Unquote(c + line, Count(c, '>')) == (AfterQuotes(c, line), 0)
    decreases |c|
  {
    CountNone(c, '>');
    if Count(c, '>') == 1 {
      UnquoteSingle(c, line);
    } else {
      var inner := UnquoteNext(c, line);
      UnquoteAll(inner, line);
    }
  }

  lemma {:induction false} UnquoteSingle(c: string, line: string)
    requires Plain(c) && '>' in c && Count(c, '>') == 1
    ensures Unquote(c + line, 1) == (AfterQuotes(c, line), 0)
  {
    var w := Leading(c, 0, Blanks);
    UnquoteOne(c, line);
    if w + 1 == |c| {
      LastQuoteIs(c, |c|);
      UnquoteLast(c, line, w);
    } else {
      UnquoteInner(c, line, w, if Blank(c[w + 1]) then c[w + 2..] else c[w + 1..]);
      OnlyQuote(c, line, w);
    }
  }

  lemma {:induction false} UnquoteNext(c: string, line: string) returns (inner: string)
    requires Plain(c) && '>' in c && Count(c, '>') > 1
    ensures Plain(inner) && '>' in inner && |inner| < |c|
    ensures Unquote(c + line, Count(c, '>')) == Unquote(inner + line, Count(inner, '>'))
    ensures AfterQuotes(c, line) == AfterQuotes(inner, line)
  {
    var w := Leading(c, 0, Blanks);
    UnquoteOne(c, line);
    CountNone(c[w + 1..], '>');
    inner := if Blank(c[w + 1]) then c[w + 2..] else c[w + 1..];
    UnquoteInner(c, line, w, inner);
    CountNone(inner, '>');
    AfterQuotesInner(c, line, |c| - |inner|);
  }

  lemma {:induction false} OnlyQuote(c: string, line: string, w: nat)
    requires Plain(c) && w + 1 < |c| && c[w] == '>' && Count(c[w + 1..], '>') == 0
    ensures Blank(c[w + 1]) && AfterQuotes(c, line) == c[w + 2..] + line
  {
    var rest := c[w + 1..];
    CountNone(rest, '>');
    assert forall i :: w + 1 <= i < |c| ==> c[i] == rest[i - w - 1] && rest[i - w - 1] in rest;
    LastQuoteIs(c, w + 1);
  }

  lemma {:induction false} UnquoteLast(c: string, line: string, w: nat)
    requires w + 1 == |c| && c[w] == '>' && Leading(c + line, 0, Blanks) == w
    ensures Unquote(c + line, 1) == (if line != "" && Blank(line[0]) then line[1..] else line, 0)
  {
    assert (c + line)[w + 1..] == line;
    if line != "" { assert (c + line)[w + 1] == line[0] && (c + line)[w + 2..] == line[1..]; }
  }

  lemma {:induction false} UnquoteInner(c: string, line: string, w: nat, inner: string)
    requires w + 1 < |c| && c[w] == '>' && Leading(c + line, 0, Blanks) == w && Count(c, '>') >= 1
    requires inner == if Blank(c[w + 1]) then c[w + 2..] else c[w + 1..]
    requires Count(c[w + 1..], '>') == Count(c, '>') - 1
    ensures Unquote(c + line, Count(c, '>')) == Unquote(inner + line, Count(c, '>') - 1)
    ensures Count(inner, '>') == Count(c, '>') - 1
    ensures Unquote(inner + line, 0) == (inner + line, 0)
  {
    assert (c + line)[w + 1] == c[w + 1];
    if Blank(c[w + 1]) {
      assert (c + line)[w + 2..] == inner + line;
      assert c[w + 1..][1..] == inner;
    } else {
      assert (c + line)[w + 1..] == inner + line;
    }
  }

  lemma {:induction false} AfterQuotesInner(c: string, line: string, k: nat)
    requires k <= |c| && '>' in c[k..]
    ensures AfterQuotes(c, line) == AfterQuotes(c[k..], line)
  {
    var inner := c[k..];
    var n := LastQuote(inner);
    assert c[n + k..] == inner[n..];
    LastQuoteIs(c, n + k);
    if n < |inner| { assert c[n + k + 1..] == inner[n + 1..]; }
  }

  lemma {:induction false} LeadingAtLeast(s: string, n: nat)
    requires n <= |s| && forall i :: 0 <= i < n ==> Blank(s[i])
    ensures Leading(s, 0, Blanks) >= n
  {
    LeadingHas(s, 0, Blanks);
  }

  lemma {:induction false} ReadsAfter(line: string, quotes: nat, padding: nat, blanks: string, rest: string)
    requires Unquote(line, quotes) == (blanks + rest, 0) && |blanks| == padding && forall i :: 0 <= i < padding ==> Blank(blanks[i])
    ensures ReadLine(line, quotes, padding) == Some(rest)
  {
    LeadingAtLeast(blanks + rest, padding);
    assert (blanks + rest)[padding..] == rest;
  }

  /** A written line is read back whole, but for one blank after a bare quote mark. */
  lemma {:induction false} WrittenLineReads(c: string, line: string)
    requires Plain(c)
    ensures ReadLine(c + line, Count(c, '>'), Padding(c)) == Some(Keep(line, c))
  {
    CountNone(c, '>');
    if '>' !in c {
      assert forall i :: 0 <= i < |c| ==> c[i] in c;
      ReadsAfter(c + line, 0, |c|, c, line);
    } else {
      UnquoteAll(c, line);
      var n := LastQuote(c);
      if n < |c| {
        assert c[|c| - 1] != '>';
        ReadsAfter(c + line, Count(c, '>'), Padding(c), c[n + 1..], line);
      } else {
        assert "" + Keep(line, c) == Keep(line, c);
        ReadsAfter(c + line, Count(c, '>'), 0, "", Keep(line, c));
      }
    }
  }

  function SeenAll(lines: seq<string>, c: string, eol: string): (seen: seq<string>)
    ensures |seen| == |lines|
  {
    if lines == [] then [] else [Seen(lines[0], c, eol)] + SeenAll(lines[1..], c, eol)
  }

  lemma {:induction false} WrittenLinesRead(lines: seq<string>, c: string, eol: string)
    requires Plain(c)
    ensures ReadLines(Prefixed(lines, c, eol) + [""], Count(c, '>'), Padding(c)) == Some(SeenAll(lines, c, eol) + [""])
  {
    if lines == [] {
      assert Prefixed(lines, c, eol) + [""] == [""] && SeenAll(lines, c, eol) + [""] == [""];
    } else {
      var all := Prefixed(lines, c, eol) + [""];
      assert all[0] == c + Clip(lines[0], eol) && all[1..] == Prefixed(lines[1..], c, eol) + [""];
      assert |all| >= 2;
      WrittenLineReads(c, Clip(lines[0], eol));
      WrittenLinesRead(lines[1..], c, eol);
      assert SeenAll(lines, c, eol) + [""] == [Seen(lines[0], c, eol)] + (SeenAll(lines[1..], c, eol) + [""]);
    }
  }

  /** Every line with a break after it. */
  function Ended(lines: seq<string>): string { if lines == [] then "" else lines[0] + ("\n" + Ended(lines[1..])) }

  lemma {:induction false} JoinEnded(lines: seq<string>)
    ensures Join(lines + [""]) == Ended(lines)
  {
    if lines == [] { assert lines + [""] == [""]; }
    else {
      assert (lines + [""])[1..] == lines[1..] + [""];
      JoinEnded(lines[1..]);
    }
  }

  /** The source that a rewritten Base has. */
  function Rewritten(normalized: string, c: string, eol: string): string {
    if normalized == "" then "" else Ended(SeenAll(Split(WithoutNewline(normalized)), c, eol))
  }

  lemma {:induction false} BodyReads(normalized: string, c: string, eol: string)
    requires Plain(c) && (eol == "\n" || eol == "\r\n")
    ensures Content(Body(normalized, c, eol), c) == Some(Rewritten(normalized, c, eol))
  {
    if normalized != "" {
      var lines := Split(WithoutNewline(normalized));
      WrittenSplits(lines, c, eol);
      WrittenLinesRead(lines, c, eol);
      JoinEnded(SeenAll(lines, c, eol));
    }
  }

  // ----- the block around the new lines

  lemma {:induction false} FirstNewlineIs(s: string, n: nat)
    requires n < |s| && s[n] == '\n' && forall i :: 0 <= i < n ==> s[i] != '\n'
    ensures FirstNewline(s) == n
  {
  }

  lemma {:induction false} LastLineIs(s: string, start: nat)
    requires start <= |s| && (forall i :: start <= i < |s| ==> s[i] != '\n') && (start > 0 ==> s[start - 1] == '\n')
    ensures LastLine(s) == start
  {
  }

  /** Both texts have the same between the two ends, `shift` further on in the second. */
  predicate Moved(a: string, start: nat, end: nat, b: string, shift: int) {
    start <= end <= |a| && 0 <= start + shift && end + shift <= |b| && forall i :: start <= i < end ==> a[i] == b[i + shift]
  }

  lemma {:induction false} TrimMoved(a: string, start: nat, end: nat, b: string, shift: int)
    requires Moved(a, start, end, b, shift)
    ensures TrimEnd(b, start + shift, end + shift) == TrimEnd(a, start, end) + shift
    decreases end
  {
    if end > start { assert a[end - 1] == b[end - 1 + shift]; }
    if end > start && Blank(a[end - 1]) { TrimMoved(a, start, end - 1, b, shift); }
  }

  lemma {:induction false} TrailingMoved(a: string, start: nat, end: nat, b: string, shift: int, c: char)
    requires Moved(a, start, end, b, shift)
    ensures Trailing(b, start + shift, end + shift, c) == Trailing(a, start, end, c)
    decreases end
  {
    if end > start { assert a[end - 1] == b[end - 1 + shift]; }
    if end > start && a[end - 1] == c { TrailingMoved(a, start, end - 1, b, shift, c); }
  }

  lemma {:induction false} FenceMoved(a: string, start: nat, end: nat, b: string, shift: int)
    requires Moved(a, start, end, b, shift)
    ensures EndingFence(b, start + shift, end + shift) == EndingFence(a, start, end)
  {
    if end > start {
      assert a[end - 1] == b[end - 1 + shift];
      var n := Trailing(a, start, end, a[end - 1]);
      TrailingMoved(a, start, end, b, shift, a[end - 1]);
      assert a[start..end - n] == b[start + shift..end - n + shift];
      assert forall i :: start <= i < end - n ==> a[i] == b[start + shift..end - n + shift][i - start] == b[i + shift];
      assert (exists i :: start <= i < end - n && a[i] == '\r') <==> (exists i :: start + shift <= i < end - n + shift && b[i] == '\r') by {
        if i :| start <= i < end - n && a[i] == '\r' { assert b[i + shift] == '\r'; }
        if i :| start + shift <= i < end - n + shift && b[i] == '\r' { assert a[i - shift] == b[i - shift + shift]; }
      }
    }
  }

  lemma {:induction false} OpeningSame(block: string, first: nat, rest: string)
    requires FirstNewline(block) < |block| && first == FirstNewline(block) + 1
    ensures FirstNewline(block[..first] + rest) == first - 1 && OpeningFence(block[..first] + rest) == OpeningFence(block)
  {
    var s := block[..first] + rest;
    var n := first - 1;
    assert forall i :: 0 <= i < first ==> s[i] == block[i] == s[i + 0];
    FirstNewlineIs(s, n);
    OpeningAlike(block, s, n);
  }

  lemma {:induction false} OpeningEnds(s: string, n: nat, line: nat, e: nat)
    requires n < |s| && FirstNewline(s) == n && line <= n && LineEnd(s, 0, n) == line && TrimEnd(s, 0, line) == e
    ensures OpeningFence(s) == if e < 4 || !Base(s, e - 4) then None else EndingFence(s, 0, TrimEnd(s, 0, e - 4))
  {
  }

  lemma {:induction false} OpeningAlike(block: string, s: string, n: nat)
    requires n < |block| && n < |s| && FirstNewline(block) == n && FirstNewline(s) == n
    requires Moved(block, 0, n, s, 0)
    ensures OpeningFence(s) == OpeningFence(block)
  {
    var line := LineEnd(block, 0, n);
    LineMoved(block, 0, n, s, 0);
    TrimMoved(block, 0, line, s, 0);
    var e := TrimEnd(block, 0, line);
    OpeningEnds(block, n, line, e);
    OpeningEnds(s, n, line, e);
    if e >= 4 {
      BaseMoved(block, s, n, e - 4);
      MarkMoved(block, 0, e - 4, n, s, 0);
    }
  }

  lemma {:induction false} MovedWithin(a: string, start: nat, end: nat, b: string, shift: int, nearer: nat)
    requires Moved(a, start, end, b, shift) && start <= nearer <= end
    ensures Moved(a, start, nearer, b, shift)
  {
  }

  lemma {:induction false} MarkMoved(a: string, start: nat, mark: nat, end: nat, b: string, shift: int)
    requires start <= mark <= end && Moved(a, start, end, b, shift)
    ensures EndingFence(b, start + shift, TrimEnd(b, start + shift, mark + shift)) == EndingFence(a, start, TrimEnd(a, start, mark))
  {
    MovedWithin(a, start, end, b, shift, mark);
    TrimMoved(a, start, mark, b, shift);
    MovedWithin(a, start, end, b, shift, TrimEnd(a, start, mark));
    FenceMoved(a, start, TrimEnd(a, start, mark), b, shift);
  }

  lemma {:induction false} LineMoved(a: string, start: nat, end: nat, b: string, shift: int)
    requires Moved(a, start, end, b, shift)
    ensures LineEnd(b, start + shift, end + shift) == LineEnd(a, start, end) + shift && Moved(a, start, LineEnd(a, start, end), b, shift)
  {
    if end > start { assert a[end - 1] == b[end - 1 + shift]; }
  }

  lemma {:induction false} BaseMoved(a: string, b: string, n: nat, at: nat)
    requires Moved(a, 0, n, b, 0) && at + 4 <= n
    ensures Base(a, at) == Base(b, at)
  {
    assert forall i :: at <= i < at + 4 ==> a[i] == b[i + 0];
  }

  lemma {:induction false} ClosingSame(block: string, front: string)
    requires front != "" && front[|front| - 1] == '\n'
    ensures LastLine(front + block[LastLine(block)..]) == |front| && ClosingFence(front + block[LastLine(block)..]) == ClosingFence(block)
  {
    var start := LastLine(block);
    var s := front + block[start..];
    var shift := |front| - start;
    assert forall i :: start <= i < |block| ==> s[i + shift] == block[i];
    assert forall i :: |front| <= i < |s| ==> s[i] == block[i - shift];
    LastLineIs(s, |front|);
    ClosingAlike(block, s, shift);
  }

  lemma {:induction false} ClosingEnds(s: string, start: nat, line: nat)
    requires LastLine(s) == start && start <= line <= |s| && LineEnd(s, start, |s|) == line
    ensures ClosingFence(s) == EndingFence(s, start, TrimEnd(s, start, line))
  {
  }

  lemma {:induction false} ClosingAlike(block: string, s: string, shift: int)
    requires |s| == |block| + shift && LastLine(s) == LastLine(block) + shift && Moved(block, LastLine(block), |block|, s, shift)
    ensures ClosingFence(s) == ClosingFence(block)
  {
    var start := LastLine(block);
    var line := LineEnd(block, start, |block|);
    LineMoved(block, start, |block|, s, shift);
    MarkMoved(block, start, line, line, s, shift);
    ClosingEnds(block, start, line);
    ClosingEnds(s, start + shift, line + shift);
  }

  lemma {:induction false} BodyEnds(lines: seq<string>, c: string, eol: string)
    requires lines != [] && (eol == "\n" || eol == "\r\n")
    ensures WriteLines(lines, c, eol) != "" && WriteLines(lines, c, eol)[|WriteLines(lines, c, eol)| - 1] == '\n'
  {
    if |lines| > 1 { BodyEnds(lines[1..], c, eol); }
    else { assert WriteLines(lines[1..], c, eol) == ""; }
  }

  lemma {:induction false} FencesStay(block: string, first: nat, last: nat, body: string, changed: string)
    requires FirstNewline(block) < |block| && first == FirstNewline(block) + 1 && last == LastLine(block)
    requires body != "" ==> body[|body| - 1] == '\n'
    requires changed == block[..first] + body + block[last..]
    ensures OpeningFence(changed) == OpeningFence(block) && ClosingFence(changed) == ClosingFence(block)
    ensures FirstNewline(changed) == first - 1 && LastLine(changed) == first + |body|
  {
    var front := block[..first] + body;
    assert front[|front| - 1] == '\n';
    assert changed == block[..first] + (body + block[last..]);
    OpeningSame(block, first, body + block[last..]);
    ClosingSame(block, front);
  }

  /** The fences of a block, as a fact about any text equal to it. */
  ghost predicate Fencing(block: string, opening: Fence, closing: Fence, frame: Frame) {
    forall x {:trigger OpeningFence(x)} :: x == block ==>
      OpeningFence(x) == Some(opening) && ClosingFence(x) == Some(closing) && Fenced(opening, closing)
      && FirstNewline(x) < |x| && frame.first == FirstNewline(x) + 1 && frame.last == LastLine(x)
      && frame.continuation == Continuation(opening.prefix, 0)
  }

  ghost predicate Framed(frames: string -> Option<Frame>, block: string, frame: Frame) {
    forall x {:trigger frames(x)} :: x == block ==> frames(x) == Some(frame)
  }

  lemma {:induction false} FencingStays(block: string, opening: Fence, closing: Fence, frame: Frame, body: string, changed: string)
    requires Fencing(block, opening, closing, frame) && frame.first <= frame.last <= |block|
    requires body != "" ==> body[|body| - 1] == '\n'
    requires changed == block[..frame.first] + body + block[frame.last..]
    ensures Fencing(changed, opening, closing, frame.(last := frame.first + |body|))
  {
    assert OpeningFence(block) == Some(opening);
    FencesStay(block, frame.first, frame.last, body, changed);
  }

  lemma {:induction false} FramedFences(block: string, frame: Frame) returns (opening: Fence, closing: Fence)
    requires Framed(FrameOf, block, frame)
    ensures Fencing(block, opening, closing, frame)
  {
    var frames: string -> Option<Frame> := FrameOf;
    assert frames(block) == Some(frame);
    opening, closing := OpeningFence(block).value, ClosingFence(block).value;
    OpeningParts(block);
  }

  lemma {:induction false} FencesFramed(block: string, opening: Fence, closing: Fence, frame: Frame)
    requires Fencing(block, opening, closing, frame)
    ensures Framed(FrameOf, block, frame)
  {
    assert OpeningFence(block) == Some(opening);
  }

  /** Replacing the content of a block keeps its two fences. */
  lemma {:induction false} FrameStays(block: string, frame: Frame, body: string, changed: string)
    requires Framed(FrameOf, block, frame) && frame.first <= frame.last <= |block| && (body != "" ==> body[|body| - 1] == '\n')
    requires changed == block[..frame.first] + body + block[frame.last..]
    ensures Framed(FrameOf, changed, frame.(last := frame.first + |body|))
  {
    var opening, closing := FramedFences(block, frame);
    FencingStays(block, opening, closing, frame, body, changed);
    FencesFramed(changed, opening, closing, frame.(last := frame.first + |body|));
  }

  function Spliced(block: string, first: nat, last: nat, body: string): string
    requires first <= last <= |block|
  {
    block[..first] + body + block[last..]
  }

  /** `frames` finds the same fences around any other content. */
  ghost predicate Stays(frames: string -> Option<Frame>) {
    forall block, frame: Frame, body {:trigger Framed(frames, block, frame), Spliced(block, frame.first, frame.last, body)} ::
      Framed(frames, block, frame) && frame.first <= frame.last <= |block| && (body != "" ==> body[|body| - 1] == '\n')
      ==> Framed(frames, Spliced(block, frame.first, frame.last, body), frame.(last := frame.first + |body|))
  }

  lemma {:induction false} FrameOfStays()
    ensures Stays(FrameOf)
  {
    forall block, frame: Frame, body
      | Framed(FrameOf, block, frame) && frame.first <= frame.last <= |block| && (body != "" ==> body[|body| - 1] == '\n')
      ensures Framed(FrameOf, Spliced(block, frame.first, frame.last, body), frame.(last := frame.first + |body|))
    {
      FrameStays(block, frame, body, Spliced(block, frame.first, frame.last, body));
    }
  }

  /** `block` is the text from the start of a line on, as a fact about any text equal to it. */
  ghost predicate Cut(text: string, from: nat, end: nat, block: string) {
    forall t: string {:trigger StartsLine(t, from)} :: t == text ==> from <= end <= |t| && block == t[from..end] && StartsLine(t, from)
  }

  lemma {:induction false} RewrittenSlice(text: string, from: nat, end: nat, first: nat, last: nat, body: string, block: string, written: string)
    requires from <= end <= |text| && first <= last <= |block| && block == text[from..end]
    requires written == text[..from + first] + body + text[from + last..]
    ensures var after := end + first + |body| - last;
            after <= |written| && |written| - |text| == after - end && written[from..after] == Spliced(block, first, last, body)
    ensures from > 0 ==> written[from - 1] == text[from - 1]
  {
  }

  lemma {:induction false} RewrittenCut(text: string, from: nat, end: nat, first: nat, last: nat, body: string, block: string, written: string)
    requires Cut(text, from, end, block) && first <= last <= |block| && from + last <= |text|
    requires written == text[..from + first] + body + text[from + last..]
    ensures from + |block| == end && Cut(written, from, end + first + |body| - last, Spliced(block, first, last, body))
    ensures |written| - |text| == first + |body| - last
  {
    assert StartsLine(text, from);
    RewrittenSlice(text, from, end, first, last, body, block, written);
  }

  /** The occurrence that is found, as a fact about any text equal to this one. */
  ghost predicate Occurs(text: string, from: nat, end: int, frames: string -> Option<Frame>, contents: (string, string) -> Option<string>, found: Request) {
    forall t: string {:trigger OccurrenceBy(t, from, end, frames, contents)} :: t == text ==>
      OccurrenceBy(t, from, end, frames, contents) == Some(found)
  }

  lemma {:induction false} OccurrenceIs(text: string, from: nat, end: nat, block: string, frame: Frame, inner: string, source: string,
                                        frames: string -> Option<Frame>, contents: (string, string) -> Option<string>)
    requires Cut(text, from, end, block)
    requires Framed(frames, block, frame) && frame.first <= frame.last <= |block|
    requires inner == block[frame.first..frame.last] && contents(inner, frame.continuation) == Some(source)
    ensures Occurs(text, from, end, frames, contents, Request(text, from, end, from + frame.first, from + frame.last, source))
  {
    assert StartsLine(text, from);
  }

  lemma {:induction false} FrameFound(text: string, from: nat, end: int, was: Request, c: string, frames: string -> Option<Frame>, contents: (string, string) -> Option<string>)
    returns (block: string, frame: Frame)
    requires Occurs(text, from, end, frames, contents, was) && Continues(frames) && Begins(text, from, c)
    ensures 0 <= end && Cut(text, from, end, block) && Framed(frames, block, frame)
    ensures frame.first <= frame.last <= |block| && frame.continuation == c && from + frame.last <= |text|
    ensures was.contentFrom == from + frame.first && was.contentTo == from + frame.last
  {
    OccurrenceHas(text, from, end, frames, contents);
    block := text[from..end];
    assert from + |block| == end;
    frame := frames(block).value;
  }

  /** The rewritten occurrence is found again. */
  lemma {:induction false} FoundAgain(text: string, from: nat, end: int, was: Request, written: string, body: string, source: string, c: string,
                                      frames: string -> Option<Frame>, contents: (string, string) -> Option<string>)
    requires Occurs(text, from, end, frames, contents, was) && Continues(frames) && Stays(frames)
    requires body != "" ==> body[|body| - 1] == '\n'
    requires Begins(text, from, c) && contents(body, c) == Some(source)
    requires was.contentFrom <= was.contentTo <= |text| && written == text[..was.contentFrom] + body + text[was.contentTo..]
    ensures var after := end + |written| - |text|;
            after >= 0 && Occurs(written, from, after, frames, contents, Request(written, from, after, was.contentFrom, was.contentFrom + |body|, source))
  {
    var block, frame := FrameFound(text, from, end, was, c, frames, contents);
    RewrittenCut(text, from, end, frame.first, frame.last, body, block, written);
    FoundIn(block, frame, body, source, written, from, end + |written| - |text|, frames, contents);
  }

  lemma {:induction false} FoundIn(block: string, frame: Frame, body: string, source: string, written: string, from: nat, after: nat,
                                   frames: string -> Option<Frame>, contents: (string, string) -> Option<string>)
    requires Framed(frames, block, frame) && Stays(frames)
    requires frame.first <= frame.last <= |block| && (body != "" ==> body[|body| - 1] == '\n')
    requires contents(body, frame.continuation) == Some(source)
    requires Cut(written, from, after, Spliced(block, frame.first, frame.last, body))
    ensures Occurs(written, from, after, frames, contents, Request(written, from, after, from + frame.first, from + frame.first + |body|, source))
  {
    FramedAgain(frames, block, frame, body);
    assert Spliced(block, frame.first, frame.last, body)[frame.first..frame.first + |body|] == body;
    OccurrenceIs(written, from, after, Spliced(block, frame.first, frame.last, body), frame.(last := frame.first + |body|), body, source, frames, contents);
  }

  lemma {:induction false} FramedAgain(frames: string -> Option<Frame>, block: string, frame: Frame, body: string)
    requires Stays(frames) && Framed(frames, block, frame) && frame.first <= frame.last <= |block| && (body != "" ==> body[|body| - 1] == '\n')
    ensures Framed(frames, Spliced(block, frame.first, frame.last, body), frame.(last := frame.first + |body|))
  {
  }

  lemma {:induction false} BodyIsEnded(normalized: string, c: string, eol: string)
    requires eol == "\n" || eol == "\r\n"
    ensures var body := Body(normalized, c, eol); body != "" ==> body[|body| - 1] == '\n'
  {
    if normalized != "" { BodyEnds(Split(WithoutNewline(normalized)), c, eol); }
  }

  // ----- a save, read back

  /** `contents` reads back what `Body` wrote. */
  ghost predicate Reads(contents: (string, string) -> Option<string>) {
    forall normalized, c, eol {:trigger Body(normalized, c, eol)} :: Plain(c) && (eol == "\n" || eol == "\r\n") ==>
      contents(Body(normalized, c, eol), c) == Some(Rewritten(normalized, c, eol))
  }

  lemma {:induction false} ContentReads()
    ensures Reads(Content)
  {
    forall normalized, c, eol | Plain(c) && (eol == "\n" || eol == "\r\n")
      ensures Content(Body(normalized, c, eol), c) == Some(Rewritten(normalized, c, eol))
    {
      BodyReads(normalized, c, eol);
    }
  }

  /** Saving a changed source replaces the content alone, and reading the occurrence
      again, at its new end, gives the lines of the source as `Seen`. */
  lemma {:induction false} SaveReads(text: string, request: Request, source: string, written: string, c: string, eol: string)
    requires Replace(text, request, source) == Done(written) && source != request.source && Begins(text, request.from, c)
    requires request.from <= request.contentFrom <= |text| ==> eol == Break(text[request.from..request.contentFrom])
    ensures request.from <= request.contentFrom <= request.contentTo <= |text|
    ensures written == text[..request.contentFrom] + Body(Unix(source), c, eol) + text[request.contentTo..]
    ensures var end := request.end + |written| - |text|;
            Occurrence(written, request.from, end)
              == Some(Request(written, request.from, end, request.contentFrom, request.contentFrom + |Body(Unix(source), c, eol)|, Rewritten(Unix(source), c, eol)))
  {
    FrameOfOpens();
    FrameOfContinues();
    FrameOfStays();
    ContentReads();
    SaveReadsBy(text, request, source, written, c, eol, FrameOf, Content);
  }

  /** The save that goes through, as a fact about any source equal to this one. */
  ghost predicate Replaces(text: string, request: Request, source: string, frames: string -> Option<Frame>, contents: (string, string) -> Option<string>, written: string)
    requires Opens(frames)
  {
    forall s: string {:trigger ReplaceBy(text, request, s, frames, contents)} :: s == source ==> ReplaceBy(text, request, s, frames, contents) == Done(written)
  }

  lemma {:induction false} SaveReadsBy(text: string, request: Request, source: string, written: string, c: string, eol: string,
                                       frames: string -> Option<Frame>, contents: (string, string) -> Option<string>)
    requires Opens(frames) && Continues(frames) && Stays(frames) && Reads(contents)
    requires Replaces(text, request, source, frames, contents, written) && source != request.source && Begins(text, request.from, c)
    requires request.from <= request.contentFrom <= |text| ==> eol == Break(text[request.from..request.contentFrom])
    ensures request.from <= request.contentFrom <= request.contentTo <= |text|
    ensures written == text[..request.contentFrom] + Body(Unix(source), c, eol) + text[request.contentTo..]
    ensures var end := request.end + |written| - |text|;
            end >= 0 && OccurrenceBy(written, request.from, end, frames, contents)
              == Some(Request(written, request.from, end, request.contentFrom, request.contentFrom + |Body(Unix(source), c, eol)|, Rewritten(Unix(source), c, eol)))
  {
    var body, seen := Body(Unix(source), c, eol), Rewritten(Unix(source), c, eol);
    var was := ReplaceSplices(text, request, source, written, c, eol, frames, contents);
    BodyRewritten(text, request, was, body, written, c, seen, frames, contents);
  }

  lemma {:induction false} BodyRewritten(text: string, request: Request, was: Request, body: string, written: string, c: string, source: string,
                                         frames: string -> Option<Frame>, contents: (string, string) -> Option<string>)
    requires Occurs(text, request.from, request.end, frames, contents, was) && Continues(frames) && Stays(frames)
    requires was.contentFrom == request.contentFrom && was.contentTo == request.contentTo
    requires request.contentFrom <= request.contentTo <= |text| && (body != "" ==> body[|body| - 1] == '\n')
    requires Begins(text, request.from, c) && contents(body, c) == Some(source)
    requires written == text[..request.contentFrom] + body + text[request.contentTo..]
    ensures var end := request.end + |written| - |text|;
            end >= 0 && OccurrenceBy(written, request.from, end, frames, contents)
                        == Some(Request(written, request.from, end, request.contentFrom, request.contentFrom + |body|, source))
  {
    FoundAgain(text, request.from, request.end, was, written, body, source, c, frames, contents);
  }

  lemma {:induction false} ReplaceSplices(text: string, request: Request, source: string, written: string, c: string, eol: string,
                                          frames: string -> Option<Frame>, contents: (string, string) -> Option<string>) returns (was: Request)
    requires Opens(frames) && Reads(contents) && Begins(text, request.from, c)
    requires Replaces(text, request, source, frames, contents, written) && source != request.source
    requires request.from <= request.contentFrom <= |text| ==> eol == Break(text[request.from..request.contentFrom])
    ensures request.from <= request.contentFrom <= request.contentTo <= |text|
    ensures contents(Body(Unix(source), c, eol), c) == Some(Rewritten(Unix(source), c, eol))
    ensures written == text[..request.contentFrom] + Body(Unix(source), c, eol) + text[request.contentTo..]
    ensures var body := Body(Unix(source), c, eol); body != "" ==> body[|body| - 1] == '\n'
    ensures Occurs(text, request.from, request.end, frames, contents, was)
    ensures was.contentFrom == request.contentFrom && was.contentTo == request.contentTo
  {
    assert ReplaceBy(text, request, source, frames, contents) == Done(written);
    OpensBy(text, request.from, request.end, frames, contents);
    OccurrenceHas(text, request.from, request.end, frames, contents);
    ContinuationPlain(FirstFence(text, request.from).value.prefix, 0);
    BodyIsEnded(Unix(source), c, eol);
    was := OccurrenceBy(text, request.from, request.end, frames, contents).value;
  }

  // ----- when the source read back is the source written

  /** A source with a break after its last line, unless it is empty. */
  function Terminated(normalized: string): string {
    if normalized == "" || normalized[|normalized| - 1] == '\n' then normalized else normalized + "\n"
  }

  /** A line that comes back as it was written: where breaks are line feeds it does not
      end with a return, and behind a bare quote mark it does not begin with a blank. */
  predicate Clean(line: string, c: string, eol: string) {
    && !(eol == "\n" && line != "" && line[|line| - 1] == '\r')
    && !(c != "" && c[|c| - 1] == '>' && line != "" && Blank(line[0]))
  }

  lemma {:induction false} SeenSame(line: string, c: string, eol: string)
    ensures |Seen(line, c, eol)| <= |line|
    ensures Clean(line, c, eol) ==> Seen(line, c, eol) == line
    ensures !Clean(line, c, eol) ==> |Seen(line, c, eol)| < |line|
  {
  }

  lemma {:induction false} EndedSeen(lines: seq<string>, c: string, eol: string)
    ensures |Ended(SeenAll(lines, c, eol))| <= |Ended(lines)|
    ensures (forall i :: 0 <= i < |lines| ==> Clean(lines[i], c, eol)) ==> Ended(SeenAll(lines, c, eol)) == Ended(lines)
    ensures !(forall i :: 0 <= i < |lines| ==> Clean(lines[i], c, eol)) ==> |Ended(SeenAll(lines, c, eol))| < |Ended(lines)|
  {
    if lines != [] {
      SeenSame(lines[0], c, eol);
      EndedSeen(lines[1..], c, eol);
      assert lines == [lines[0]] + lines[1..];
    }
  }

  lemma {:induction false} EndedSplit(s: string)
    ensures Ended(Split(s)) == s + "\n"
  {
    if s == "" { assert Ended([""]) == "" + ("\n" + "") by { assert [""][1..] == []; } }
    else {
      var rest := Split(s[1..]);
      EndedSplit(s[1..]);
      assert s == [s[0]] + s[1..];
      if s[0] == '\n' {
        assert ([""] + rest)[1..] == rest;
      } else {
        assert ([[s[0]] + rest[0]] + rest[1..])[1..] == rest[1..];
        assert ([s[0]] + rest[0]) + ("\n" + Ended(rest[1..])) == [s[0]] + (rest[0] + ("\n" + Ended(rest[1..])));
        assert [s[0]] + (s[1..] + "\n") == s + "\n";
      }
    }
  }

  /** Exactly the sources whose lines are all clean come back as they were written. */
  lemma {:induction false} RewrittenExactly(normalized: string, c: string, eol: string)
    ensures var lines := Split(WithoutNewline(normalized));
            Rewritten(normalized, c, eol) == Terminated(normalized) <==> forall i :: 0 <= i < |lines| ==> Clean(lines[i], c, eol)
  {
    var lines := Split(WithoutNewline(normalized));
    EndedSplit(WithoutNewline(normalized));
    EndedSeen(lines, c, eol);
    if normalized == "" { assert lines == [""]; }
    if normalized != "" { assert WithoutNewline(normalized) + "\n" == Terminated(normalized); }
  }

  /** A save reads back as it was written exactly when every line is clean. */
  lemma {:induction false} SaveReadsExactly(text: string, request: Request, source: string, written: string, c: string, eol: string)
    requires Replace(text, request, source) == Done(written) && source != request.source && Begins(text, request.from, c)
    requires request.from <= request.contentFrom <= |text| ==> eol == Break(text[request.from..request.contentFrom])
    ensures var again := Occurrence(written, request.from, request.end + |written| - |text|);
            var lines := Split(WithoutNewline(Unix(source)));
            again.Some? && (again.value.source == Terminated(Unix(source)) <==> forall i :: 0 <= i < |lines| ==> Clean(lines[i], c, eol))
  {
    SaveReads(text, request, source, written, c, eol);
    RewrittenExactly(Unix(source), c, eol);
  }

  lemma {:induction false} SplitsWhole(s: string)
    requires '\n' !in s
    ensures Split(s) == [s]
  {
    if s != "" {
      assert s == [s[0]] + s[1..];
      SplitsWhole(s[1..]);
    }
  }

  // ----- a note on which a save loses a blank

  const QUOTED := ">```base\n>```"

  lemma {:induction false} TickFence(s: string, start: nat)
    requires start + 4 <= |s| && s[start] == '>' && forall i :: start < i < start + 4 ==> s[i] == '`'
    ensures TrimEnd(s, start, start + 4) == start + 4 && EndingFence(s, start, start + 4) == Some(Fence(">", '`', 3))
  {
    assert Trailing(s, start, start + 1, '`') == 0;
    assert Trailing(s, start, start + 2, '`') == 1;
    assert Trailing(s, start, start + 3, '`') == 2;
    assert Trailing(s, start, start + 4, '`') == 3;
    assert s[start..start + 1] == ">";
  }

  lemma {:induction false} QuoteAlone()
    ensures Continuation(">", 0) == ">" && Prefix(">", 0) && Marks(">", 0) == ">"
  {
    assert MarkerHead(">", 0) == 0 && MarkerLength(">", 0) == 0;
    assert Continuation(">", 1) == "" && Marks(">", 1) == "" && Prefix(">", 1);
  }

  /** The characters of QUOTED. */
  predicate QuotesBase(block: string) {
    && |block| == 13 && block[0] == '>' && block[9] == '>' && block[8] == '\n'
    && block[4] == 'b' && block[5] == 'a' && block[6] == 's' && block[7] == 'e'
    && (forall i :: 1 <= i < 4 ==> block[i] == '`') && (forall i :: 10 <= i < 13 ==> block[i] == '`')
  }

  lemma {:induction false} QuotedOpens(block: string)
    requires QuotesBase(block)
    ensures OpeningFence(block) == Some(Fence(">", '`', 3)) && FirstNewline(block) == 8
  {
    FirstNewlineIs(block, 8);
    TickFence(block, 0);
    assert TrimEnd(block, 0, 8) == 8 && LineEnd(block, 0, 8) == 8 && Base(block, 4);
  }

  lemma {:induction false} QuotedCloses(block: string)
    requires QuotesBase(block)
    ensures ClosingFence(block) == Some(Fence(">", '`', 3)) && LastLine(block) == 9
  {
    LastLineIs(block, 9);
    TickFence(block, 9);
    assert LineEnd(block, 9, 13) == 13;
  }

  lemma {:induction false} QuotedFrame(block: string)
    requires QuotesBase(block)
    ensures Framed(FrameOf, block, Frame(9, 9, ">"))
  {
    QuotedOpens(block);
    QuotedCloses(block);
    QuoteAlone();
    assert Fenced(Fence(">", '`', 3), Fence(">", '`', 3));
  }

  lemma {:induction false} NoContent(c: string)
    ensures Content("", c) == Some("")
  {
    assert Unix("") == "" && Split("") == [""] && Join([""]) == "";
  }

  lemma {:induction false} WholeOccurs(block: string)
    requires QuotesBase(block)
    ensures Occurs(block, 0, 13, FrameOf, Content, Request(block, 0, 13, 9, 9, ""))
  {
    QuotedFrame(block);
    NoContent(">");
    assert block[0..13] == block && block[9..9] == "";
    OccurrenceIs(block, 0, 13, block, Frame(9, 9, ">"), "", "", FrameOf, Content);
  }

  lemma {:induction false} QuotedOccurs()
    ensures Occurrence(QUOTED, 0, 13) == Some(Request(QUOTED, 0, 13, 9, 9, ""))
  {
    WholeOccurs(QUOTED);
  }

  lemma {:induction false} QuotedBegins()
    ensures FirstFence(QUOTED, 0) == Some(Fence(">", '`', 3)) && Begins(QUOTED, 0, ">")
  {
    LeadingIs(QUOTED, 1, Only('`'), 3);
    assert FirstFence(QUOTED, 1) == Some(Fence("", '`', 3));
    QuoteAlone();
  }

  /** The text ` a` has one line, which closes no fence. */
  lemma {:induction false} BlankA()
    ensures Unix(" a") == " a" && WithoutNewline(" a") == " a" && Split(" a") == [" a"]
    ensures !Closes(" a", '`', 3)
    ensures Rewritten(" a", ">", "\n") == "a\n"
  {
    SplitsWhole(" a");
    assert Unix(" a") == [' '] + Unix(" a"[1..]) && Unix(" a"[1..]) == ['a'] + Unix("");
    LeadingIs(" a", 0, Only(' '), 1);
    LeadingIs(" a", 1, Only('`'), 0);
    assert Seen(" a", ">", "\n") == "a";
    assert SeenAll([" a"], ">", "\n") == ["a"] by { assert [" a"][1..] == []; }
    assert Ended(["a"]) == "a\n" by { assert ["a"][1..] == []; }
  }

  lemma {:induction false} BreakIs(opening: string)
    requires |opening| >= 2 && opening[|opening| - 2] != '\r'
    ensures Break(opening) == "\n"
  {
    assert opening[|opening| - 2..][0] == opening[|opening| - 2];
  }

  lemma {:induction false} QuotedSaves() returns (written: string)
    ensures Replace(QUOTED, Request(QUOTED, 0, 13, 9, 9, ""), " a") == Done(written)
  {
    QuotedOccurs();
    QuotedBegins();
    BlankA();
    FrameOfOpens();
    Replaceable(QUOTED, Request(QUOTED, 0, 13, 9, 9, ""), " a", FrameOf, Content);
    written := Replace(QUOTED, Request(QUOTED, 0, 13, 9, 9, ""), " a").text;
  }

  /** What a save needs to go through. */
  lemma {:induction false} Replaceable(text: string, request: Request, source: string, frames: string -> Option<Frame>, contents: (string, string) -> Option<string>)
    requires Opens(frames) && request.documentText == text && source != request.source && request.from <= |text|
    requires OccurrenceBy(text, request.from, request.end, frames, contents) == Some(request)
    requires var fence := FirstFence(text, request.from);
             fence.Some? && forall i :: 0 <= i < |Split(Unix(source))| ==> !Closes(Split(Unix(source))[i], fence.value.tick, fence.value.count)
    ensures ReplaceBy(text, request, source, frames, contents).Done?
  {
  }

  /** In a note that quotes a Base without blanks after the quote marks, the source ` a`
      is saved, and read back without its blank. */
  lemma {:induction false} BareQuoteLosesBlank()
    ensures var request := Request(QUOTED, 0, 13, 9, 9, "");
            var saved := Replace(QUOTED, request, " a");
            Occurrence(QUOTED, 0, 13) == Some(request) && saved.Done?
            && var again := Occurrence(saved.text, 0, 13 + |saved.text| - |QUOTED|);
               again.Some? && again.value.source == "a\n"
  {
    QuotedOccurs();
    QuotedBegins();
    BlankA();
    var written := QuotedSaves();
    BreakIs(QUOTED[0..9]);
    SaveReads(QUOTED, Request(QUOTED, 0, 13, 9, 9, ""), " a", written, ">", "\n");
  }

  // ----- the loops

  method ReadOne(line: string, quotes: nat, padding: nat) returns (content: Option<string>)
    ensures content == ReadLine(line, quotes, padding)
  {
    var remainder, left := line, quotes;
    while left > 0
      invariant Unquote(line, quotes) == Unquote(remainder, left)
    {
      var w := Leading(remainder, 0, Blanks);
      if w == |remainder| || remainder[w] != '>' { break; }
      remainder := if w + 1 < |remainder| && Blank(remainder[w + 1]) then remainder[w + 2..] else remainder[w + 1..];
      left := left - 1;
    }
    if left == 0 { return Some(remainder[Min(padding, Leading(remainder, 0, Blanks))..]); }
    if forall i :: 0 <= i < |line| ==> Blank(line[i]) || line[i] == '>' { return Some(""); }
    return None;
  }

  lemma {:induction false} ReadStep(lines: seq<string>, i: nat, quotes: nat, padding: nat)
    requires i < |lines| && !(lines[i] == "" && i == |lines| - 1)
    ensures ReadLines(lines[i..], quotes, padding)
         == var line, rest := ReadLine(lines[i], quotes, padding), ReadLines(lines[i + 1..], quotes, padding);
            if line.None? || rest.None? then None else Some([line.value] + rest.value)
  {
    assert lines[i..][0] == lines[i] && lines[i..][1..] == lines[i + 1..];
    if |lines[i..]| == 1 { assert lines[i..] != [""]; }
  }

  lemma {:induction false} Regroup(content: seq<string>, line: string, rest: seq<string>)
    ensures content + ([line] + rest) == (content + [line]) + rest
  {
  }

  method ReadContent(inner: string, continuation: string) returns (source: Option<string>)
    ensures source == Content(inner, continuation)
  {
    var lines := Split(Unix(inner));
    var quotes, padding := Count(continuation, '>'), Padding(continuation);
    var content: seq<string> := [];
    var i: nat := 0;
    assert lines[0..] == lines;
    assert forall rest: seq<string> :: [] + rest == rest;
    while i < |lines|
      invariant i <= |lines|
      invariant var rest := ReadLines(lines[i..], quotes, padding);
                ReadLines(lines, quotes, padding) == if rest.None? then None else Some(content + rest.value)
    {
      if lines[i] == "" && i == |lines| - 1 {
        assert lines[i..] == [""] && lines[i + 1..] == [];
        assert [""] + [] == [""];
        Regroup(content, "", []);
        content := content + [""];
      } else {
        ReadStep(lines, i, quotes, padding);
        var line := ReadOne(lines[i], quotes, padding);
        if line.None? { return None; }
        var rest := ReadLines(lines[i + 1..], quotes, padding);
        if rest.Some? { Regroup(content, line.value, rest.value); }
        content := content + [line.value];
      }
      i := i + 1;
    }
    assert lines[i..] == [] && content + [] == content;
    return Some(Join(content));
  }

  /** What `frames` makes of a block, as a fact about any text equal to it. */
  ghost predicate FramedAs(frames: string -> Option<Frame>, block: string, frame: Option<Frame>) {
    forall x {:trigger frames(x)} :: x == block ==> frames(x) == frame
  }

  method FindFrame(block: string) returns (frame: Option<Frame>)
    ensures FramedAs(FrameOf, block, frame)
  {
    frame := FrameOf(block);
  }

  lemma {:induction false} OccurrenceOf(text: string, from: nat, end: nat, block: string, frame: Option<Frame>, source: Option<string>,
                                        frames: string -> Option<Frame>, contents: (string, string) -> Option<string>)
    requires from <= end <= |text| && StartsLine(text, from) && block == text[from..end] && FramedAs(frames, block, frame)
    requires frame.Some? && frame.value.first <= frame.value.last <= |block| ==>
               source == contents(block[frame.value.first..frame.value.last], frame.value.continuation)
    requires frame.None? || frame.value.last < frame.value.first || frame.value.last > |block| ==> source.None?
    ensures OccurrenceBy(text, from, end, frames, contents)
         == if source.None? then None
            else Some(Request(text, from, end, from + frame.value.first, from + frame.value.last, source.value))
  {
  }

  /** The occurrence between two positions. */
  method InlineBaseRequest(text: string, from: int, end: int) returns (request: Option<Request>)
    ensures request == Occurrence(text, from, end)
  {
    if from < 0 || end > |text| || end < from { return None; }
    if !StartsLine(text, from) { return None; }
    var block := text[from..end];
    var frame := FindFrame(block);
    var source: Option<string> := None;
    if frame.Some? && frame.value.first <= frame.value.last <= |block| {
      source := ReadContent(block[frame.value.first..frame.value.last], frame.value.continuation);
    }
    OccurrenceOf(text, from, end, block, frame, source, FrameOf, Content);
    if source.None? { return None; }
    return Some(Request(text, from, end, from + frame.value.first, from + frame.value.last, source.value));
  }

  // ----- positions in the text before its breaks were normalised

  lemma {:induction false} UnixJoin(a: string, b: string)
    requires !(a != "" && a[|a| - 1] == '\r' && b != "" && b[0] == '\n')
    ensures Unix(a + b) == Unix(a) + Unix(b)
    decreases |a|
  {
    if a == "" { assert a + b == b; }
    else if a[0] == '\r' && |a| > 1 && a[1] == '\n' {
      assert (a + b)[2..] == a[2..] + b;
      UnixJoin(a[2..], b);
      assert ['\n'] + (Unix(a[2..]) + Unix(b)) == (['\n'] + Unix(a[2..])) + Unix(b);
    } else {
      assert (a + b)[1..] == a[1..] + b && (a + b)[0] == a[0];
      if |a| > 1 { assert (a + b)[1] == a[1]; } else if b != "" { assert (a + b)[1] == b[0]; }
      UnixJoin(a[1..], b);
      assert [a[0]] + (Unix(a[1..]) + Unix(b)) == ([a[0]] + Unix(a[1..])) + Unix(b);
    }
  }

  /** The position in the original text of a position in the normalised one. */
  method OriginalOffset(source: string, offset: int) returns (raw: nat)
    ensures raw <= |source| && Unix(source) == Unix(source[..raw]) + Unix(source[raw..])
    ensures |Unix(source[..raw])| == if offset < 0 then 0 else Min(offset, |Unix(source)|)
  {
    raw := 0;
    var normalized: nat := 0;
    assert source[0..] == source;
    while raw < |source| && normalized < offset
      invariant raw <= |source| && Unix(source) == Unix(source[..raw]) + Unix(source[raw..])
      invariant |Unix(source[..raw])| == normalized && (normalized == 0 || normalized <= offset)
      invariant raw > 0 && raw < |source| && source[raw - 1] == '\r' ==> source[raw] != '\n'
      decreases |source| - raw
    {
      var step := if source[raw] == '\r' && raw + 1 < |source| && source[raw + 1] == '\n' then 2 else 1;
      OneMore(source, raw, step);
      raw, normalized := raw + step, normalized + 1;
    }
    assert raw == |source| ==> source[raw..] == "";
  }

  lemma {:induction false} OneMore(source: string, raw: nat, step: nat)
    requires raw < |source| && step == if source[raw] == '\r' && raw + 1 < |source| && source[raw + 1] == '\n' then 2 else 1
    requires raw > 0 && source[raw - 1] == '\r' ==> source[raw] != '\n'
    ensures raw + step <= |source| && |Unix(source[..raw + step])| == |Unix(source[..raw])| + 1
    ensures Unix(source[..raw]) + Unix(source[raw..]) == Unix(source[..raw + step]) + Unix(source[raw + step..])
  {
    var mid, rest := source[raw..raw + step], source[raw + step..];
    assert source[raw..] == mid + rest && source[..raw + step] == source[..raw] + mid;
    assert |Unix(mid)| == 1 by { if step == 2 { assert mid[2..] == ""; } else { assert mid[1..] == ""; } }
    UnixJoin(source[..raw], mid);
    UnixJoin(mid, rest);
  }
}
