/** The opening block of `src/recall.rs`: sections rendered as lines, and items
    dropped one at a time until the block fits its budget. */
module OpeningBlock {
  import opened Decimal

  datatype Kind = Session | Prompt | Pin | Memory

  /** Text as its bytes in UTF-8, each written as the character of that number. */
  type Bytes = string

  /** What there is to show, newest first: of every item its own lines (a memory's
      caveats included). */
  datatype Sections = Sections(sessions: seq<Bytes>, prompts: seq<Bytes>, pinned: seq<Bytes>, pinnedOmitted: nat, memories: seq<Bytes>) {
    function Items(kind: Kind): seq<Bytes> {
      match kind
      case Session => sessions
      case Prompt => prompts
      case Pin => pinned
      case Memory => memories
    }

    predicate Empty() { sessions == [] && prompts == [] && pinned == [] && memories == [] }

    function Total(): nat { |memories| + |prompts| + |sessions| + |pinned| }
  }

  /** How many of each kind are shown. */
  datatype Kept = Kept(sessions: nat, prompts: nat, pinned: nat, memories: nat) {
    function Of(kind: Kind): nat {
      match kind
      case Session => sessions
      case Prompt => prompts
      case Pin => pinned
      case Memory => memories
    }

    predicate Within(all: Sections) {
      sessions <= |all.sessions| && prompts <= |all.prompts| && pinned <= |all.pinned| && memories <= |all.memories|
    }

    function Total(): nat { memories + prompts + sessions + pinned }
  }

  datatype Line =
    | Opening
    | Heading(kind: Kind)
    | Item(kind: Kind, index: nat)
    | MorePinned(omitted: nat)
    | Blank
    | CutLine(budget: nat, left: Kept)

  /// The text, line by line

  function Upto(n: nat): (s: seq<nat>)
    ensures |s| == n && forall i | 0 <= i < n :: s[i] == i
  {
    if n == 0 then [] else Upto(n - 1) + [n - 1]
  }

  function ItemLines(kind: Kind, n: nat): seq<Line> {
    if n == 0 then [] else ItemLines(kind, n - 1) + [Item(kind, n - 1)]
  }

  function Section(kind: Kind, n: nat): seq<Line> {
    if n == 0 then [] else [Heading(kind)] + ItemLines(kind, n) + [Blank]
  }

  function PinLines(n: nat, omitted: nat): seq<Line> {
    ItemLines(Pin, n) + if omitted > 0 then [MorePinned(omitted)] else []
  }

  function PinnedSection(n: nat, omitted: nat): seq<Line> {
    if n == 0 && omitted == 0 then [] else [Heading(Pin)] + PinLines(n, omitted) + [Blank]
  }

  function Body(all: Sections, kept: Kept): seq<Line> {
    [Opening] + Section(Session, kept.sessions) + Section(Prompt, kept.prompts) + PinnedSection(kept.pinned, all.pinnedOmitted)
    + Section(Memory, kept.memories)
  }

  function Left(all: Sections, kept: Kept): Kept
    requires kept.Within(all)
  {
    Kept(|all.sessions| - kept.sessions, |all.prompts| - kept.prompts, |all.pinned| - kept.pinned, |all.memories| - kept.memories)
  }

  function CutLines(budget: nat, left: Kept): seq<Line> {
    if left.Total() == 0 then [] else [CutLine(budget, left)]
  }

  function Rendered(all: Sections, kept: Kept, budget: nat): seq<Line>
    requires kept.Within(all)
  {
    Body(all, kept) + CutLines(budget, Left(all, kept))
  }

  /// Its length in bytes

  function HeadingWidth(kind: Kind): nat {
    match kind
    case Session => 20
    case Prompt => 24
    case Pin => 11
    case Memory => 55
  }

  function WordWidth(kind: Kind): nat {
    match kind
    case Memory => 9
    case Pin => 7
    case Prompt => 8
    case Session => 9
  }

  function PartWidth(kind: Kind, n: nat): nat { if n == 0 then 0 else |Digits(n)| + WordWidth(kind) }

  function Parts(left: Kept): nat {
    (if left.memories > 0 then 1 else 0) + (if left.pinned > 0 then 1 else 0) + (if left.prompts > 0 then 1 else 0)
    + if left.sessions > 0 then 1 else 0
  }

  /** The part of the cut line that does not name the budget. */
  function CutWidth(left: Kept): nat {
    var parts := PartWidth(Memory, left.memories) + PartWidth(Pin, left.pinned) + PartWidth(Prompt, left.prompts)
                 + PartWidth(Session, left.sessions);
    10 + 8 + parts + (if Parts(left) > 0 then 2 * (Parts(left) - 1) else 0) + 47
  }

  function Width(all: Sections, line: Line): nat {
    match line
    case Opening => 34
    case Heading(kind) => HeadingWidth(kind)
    case Item(kind, i) => if i < |all.Items(kind)| then |all.Items(kind)[i]| else 0
    case MorePinned(n) => 3 + |Digits(n)| + 56
    case Blank => 1
    case CutLine(budget, left) => |Digits(budget)| + CutWidth(left)
  }

  function Size(all: Sections, lines: seq<Line>): nat {
    if lines == [] then 0 else Size(all, lines[..|lines| - 1]) + Width(all, lines[|lines| - 1])
  }

  lemma {:induction false} SizeAppends(all: Sections, a: seq<Line>, b: seq<Line>)
    ensures Size(all, a + b) == Size(all, a) + Size(all, b)
  {
    if b == [] {
      assert a + b == a;
    } else {
      SizeAppends(all, a, b[..|b| - 1]);
      assert (a + b)[..|a + b| - 1] == a + b[..|b| - 1];
    }
  }

  /// How it is spelled

  function Title(kind: Kind): Bytes {
    match kind
    case Session => "### Recent Sessions\n"
    case Prompt => "### Recent User Prompts\n"
    case Pin => "### Pinned\n"
    case Memory => "### Also remembered \U{E2}\U{80}\U{94} fetch with mem_get_observation\n"
  }

  function Word(kind: Kind): Bytes {
    match kind
    case Memory => " memories"
    case Pin => " pinned"
    case Prompt => " prompts"
    case Session => " sessions"
  }

  function Part(kind: Kind, n: nat): seq<Bytes> { if n == 0 then [] else [Digits(n) + Word(kind)] }

  /** How much of each kind is left out, where anything is. */
  function PartsOf(left: Kept): seq<Bytes> {
    Part(Memory, left.memories) + Part(Pin, left.pinned) + Part(Prompt, left.prompts) + Part(Session, left.sessions)
  }

  function Listing(parts: seq<Bytes>): Bytes {
    if parts == [] then ""
    else if |parts| == 1 then parts[0]
    else Listing(parts[..|parts| - 1]) + ", " + parts[|parts| - 1]
  }

  function CutText(budget: nat, listing: Bytes): Bytes {
    "- (cut to " + Digits(budget) + " bytes; " + listing + " not shown - ask for memories with mem_search)\n"
  }

  function Spelled(all: Sections, line: Line): Bytes {
    match line
    case Opening => "## Memory from Previous Sessions\n\n"
    case Heading(kind) => Title(kind)
    case Item(kind, i) => if i < |all.Items(kind)| then all.Items(kind)[i] else ""
    case MorePinned(n) => "- (" + Digits(n) + " more pinned, not shown - ask for them with mem_search)\n"
    case Blank => "\n"
    case CutLine(budget, left) => CutText(budget, Listing(PartsOf(left)))
  }

  /** The block itself. */
  function Text(all: Sections, lines: seq<Line>): Bytes {
    if lines == [] then "" else Text(all, lines[..|lines| - 1]) + Spelled(all, lines[|lines| - 1])
  }

  function Lengths(parts: seq<Bytes>): nat { if parts == [] then 0 else Lengths(parts[..|parts| - 1]) + |parts[|parts| - 1]| }

  lemma {:induction false} ListingLength(parts: seq<Bytes>)
    ensures |Listing(parts)| == Lengths(parts) + if parts == [] then 0 else 2 * (|parts| - 1)
  {
    if |parts| > 1 { ListingLength(parts[..|parts| - 1]); }
  }

  lemma {:induction false} LengthsAppend(a: seq<Bytes>, b: seq<Bytes>)
    ensures Lengths(a + b) == Lengths(a) + Lengths(b)
  {
    if b == [] {
      assert a + b == a;
    } else {
      LengthsAppend(a, b[..|b| - 1]);
      assert (a + b)[..|a + b| - 1] == a + b[..|b| - 1];
    }
  }

  lemma PartLength(kind: Kind, n: nat)
    ensures Lengths(Part(kind, n)) == PartWidth(kind, n)
  {
  }

  lemma PartsLength(left: Kept)
    ensures Lengths(PartsOf(left)) == PartWidth(Memory, left.memories) + PartWidth(Pin, left.pinned)
              + PartWidth(Prompt, left.prompts) + PartWidth(Session, left.sessions)
  {
    var (a, b, c, d) := (Part(Memory, left.memories), Part(Pin, left.pinned), Part(Prompt, left.prompts), Part(Session, left.sessions));
    LengthsAppend(a, b);
    LengthsAppend(a + b, c);
    LengthsAppend(a + b + c, d);
    PartLength(Memory, left.memories);
    PartLength(Pin, left.pinned);
    PartLength(Prompt, left.prompts);
    PartLength(Session, left.sessions);
  }

  lemma CutTextLength(budget: nat, listing: Bytes)
    ensures |CutText(budget, listing)| == 10 + |Digits(budget)| + 8 + |listing| + 47
  {
  }

  lemma CutSpelled(budget: nat, left: Kept)
    ensures |CutText(budget, Listing(PartsOf(left)))| == |Digits(budget)| + CutWidth(left)
  {
    var parts := PartsOf(left);
    CutTextLength(budget, Listing(parts));
    ListingLength(parts);
    PartsLength(left);
    assert |parts| == Parts(left);
  }

  lemma WidthIsSpelled(all: Sections, line: Line)
    ensures Width(all, line) == |Spelled(all, line)|
  {
    match line
    case CutLine(budget, left) => CutSpelled(budget, left);
    case _ =>
  }

  /** What the budget is held against is the length of the block. */
  lemma {:induction false} SizeIsLength(all: Sections, lines: seq<Line>)
    ensures Size(all, lines) == |Text(all, lines)|
  {
    if lines != [] {
      SizeIsLength(all, lines[..|lines| - 1]);
      WidthIsSpelled(all, lines[|lines| - 1]);
    }
  }

  /** An item with a line in a text is in it, word for word. */
  lemma {:induction false} ShownIsInTheText(all: Sections, lines: seq<Line>, kind: Kind, i: nat) returns (a: Bytes, b: Bytes)
    requires i < |all.Items(kind)| && i in Only(kind, lines)
    ensures Text(all, lines) == a + all.Items(kind)[i] + b
  {
    var (front, last) := (lines[..|lines| - 1], lines[|lines| - 1]);
    if last == Item(kind, i) {
      a, b := Text(all, front), "";
    } else {
      a, b := ShownIsInTheText(all, front, kind, i);
      Associates(a, all.Items(kind)[i], b, Spelled(all, last));
      b := b + Spelled(all, last);
    }
  }

  lemma Associates(a: Bytes, item: Bytes, b: Bytes, c: Bytes)
    ensures (a + item + b) + c == a + item + (b + c)
  {
  }

  /** The cut line names every kind that lost something, with how much of it. */
  lemma CutNames(budget: nat, left: Kept, kind: Kind) returns (a: Bytes, b: Bytes)
    requires left.Of(kind) > 0
    ensures CutText(budget, Listing(PartsOf(left))) == a + (Digits(left.Of(kind)) + Word(kind)) + b
  {
    var one := Digits(left.Of(kind)) + Word(kind);
    assert one in PartsOf(left) by { assert Part(kind, left.Of(kind)) == [one]; }
    var i :| 0 <= i < |PartsOf(left)| && PartsOf(left)[i] == one;
    var x, y := ListingHolds(PartsOf(left), i);
    a, b := InCutText(budget, x, one, y);
  }

  lemma InCutText(budget: nat, x: Bytes, one: Bytes, y: Bytes) returns (a: Bytes, b: Bytes)
    ensures CutText(budget, x + one + y) == a + one + b
  {
    var (before, after) := ("- (cut to " + Digits(budget) + " bytes; ", " not shown - ask for memories with mem_search)\n");
    a, b := before + x, y + after;
    Around(before, x, one, y, after);
  }

  lemma Around(before: Bytes, x: Bytes, one: Bytes, y: Bytes, after: Bytes)
    ensures before + (x + one + y) + after == (before + x) + one + (y + after)
  {
  }

  lemma {:induction false} ListingHolds(parts: seq<Bytes>, i: nat) returns (a: Bytes, b: Bytes)
    requires i < |parts|
    ensures Listing(parts) == a + parts[i] + b
    decreases |parts|
  {
    var n := |parts| - 1;
    if n == 0 {
      a, b := "", "";
    } else if i == n {
      a, b := Listing(parts[..i]) + ", ", "";
    } else {
      a, b := ListingHolds(parts[..n], i);
      Associates(a, parts[i], b, ", ");
      Associates(a, parts[i], b + ", ", parts[n]);
      b := b + ", " + parts[n];
    }
  }

  /// What the bytes are

  function ItemBytes(items: seq<Bytes>, n: nat): nat
    requires n <= |items|
  {
    if n == 0 then 0 else ItemBytes(items, n - 1) + |items[n - 1]|
  }

  /** A section costs its heading, its items and a blank line, or nothing. */
  function SectionBytes(heading: nat, items: seq<Bytes>, n: nat, more: nat): nat
    requires n <= |items|
  {
    if n == 0 && more == 0 then 0 else heading + ItemBytes(items, n) + more + 1
  }

  function MoreBytes(omitted: nat): nat { if omitted == 0 then 0 else 59 + |Digits(omitted)| }

  lemma SizePush(all: Sections, lines: seq<Line>, line: Line)
    ensures Size(all, lines + [line]) == Size(all, lines) + Width(all, line)
  {
    assert (lines + [line])[..|lines|] == lines;
  }

  lemma {:induction false} ItemsSize(all: Sections, kind: Kind, n: nat)
    requires n <= |all.Items(kind)|
    ensures Size(all, ItemLines(kind, n)) == ItemBytes(all.Items(kind), n)
  {
    if n > 0 {
      ItemsSize(all, kind, n - 1);
      SizePush(all, ItemLines(kind, n - 1), Item(kind, n - 1));
    }
  }

  lemma FramedSize(all: Sections, kind: Kind, inside: seq<Line>)
    ensures Size(all, [Heading(kind)] + inside + [Blank]) == HeadingWidth(kind) + Size(all, inside) + 1
  {
    SizePush(all, [Heading(kind)] + inside, Blank);
    SizeAppends(all, [Heading(kind)], inside);
  }

  lemma SectionSize(all: Sections, kind: Kind, n: nat)
    requires n <= |all.Items(kind)|
    ensures Size(all, Section(kind, n)) == SectionBytes(HeadingWidth(kind), all.Items(kind), n, 0)
  {
    ItemsSize(all, kind, n);
    FramedSize(all, kind, ItemLines(kind, n));
  }

  lemma PinnedSize(all: Sections, n: nat)
    requires n <= |all.pinned|
    ensures Size(all, PinnedSection(n, all.pinnedOmitted)) == SectionBytes(11, all.pinned, n, MoreBytes(all.pinnedOmitted))
  {
    ItemsSize(all, Pin, n);
    assert ItemLines(Pin, n) + [] == ItemLines(Pin, n);
    SizePush(all, ItemLines(Pin, n), MorePinned(all.pinnedOmitted));
    FramedSize(all, Pin, PinLines(n, all.pinnedOmitted));
  }

  lemma BodySize(all: Sections, kept: Kept)
    requires kept.Within(all)
    ensures Size(all, Body(all, kept))
         == 34 + SectionBytes(20, all.sessions, kept.sessions, 0) + SectionBytes(24, all.prompts, kept.prompts, 0)
            + SectionBytes(11, all.pinned, kept.pinned, MoreBytes(all.pinnedOmitted)) + SectionBytes(55, all.memories, kept.memories, 0)
  {
    var (a, b, c, d) := (
      Section(Session, kept.sessions), Section(Prompt, kept.prompts), PinnedSection(kept.pinned, all.pinnedOmitted),
      Section(Memory, kept.memories));
    SectionSize(all, Session, kept.sessions);
    SectionSize(all, Prompt, kept.prompts);
    PinnedSize(all, kept.pinned);
    SectionSize(all, Memory, kept.memories);
    SizeAppends(all, [Opening], a);
    SizeAppends(all, [Opening] + a, b);
    SizeAppends(all, [Opening] + a + b, c);
    SizeAppends(all, [Opening] + a + b + c, d);
    assert Size(all, [Opening]) == 34;
  }

  /** The bytes the announcement of what was left out takes. */
  function CutBytes(budget: nat, left: Kept): nat {
    if left.Total() == 0 then 0 else |CutText(budget, Listing(PartsOf(left)))|
  }

  lemma CutSize(all: Sections, budget: nat, left: Kept)
    ensures Size(all, CutLines(budget, left)) == CutBytes(budget, left)
  {
    if left.Total() > 0 {
      SizePush(all, [], CutLine(budget, left));
      assert [] + [CutLine(budget, left)] == [CutLine(budget, left)];
      CutSpelled(budget, left);
    }
  }

  /** Every byte of a block is accounted for: the opening line, of every kind shown a
      heading, the shown items' own bytes and a blank line, and what is said of the rest. */
  lemma RenderedBytes(all: Sections, kept: Kept, budget: nat)
    requires kept.Within(all)
    ensures |Text(all, Rendered(all, kept, budget))|
         == 34 + SectionBytes(20, all.sessions, kept.sessions, 0) + SectionBytes(24, all.prompts, kept.prompts, 0)
            + SectionBytes(11, all.pinned, kept.pinned, MoreBytes(all.pinnedOmitted)) + SectionBytes(55, all.memories, kept.memories, 0)
            + CutBytes(budget, Left(all, kept))
  {
    BodySize(all, kept);
    CutSize(all, budget, Left(all, kept));
    SizeAppends(all, Body(all, kept), CutLines(budget, Left(all, kept)));
    SizeIsLength(all, Rendered(all, kept, budget));
  }

  /// The order in which items go

  function Minus(a: nat, b: nat): nat { if a <= b then 0 else a - b }

  /** What is shown after `k` drops: titles go first, then prompts, then sessions, and pins last. */
  function After(all: Sections, k: nat): Kept {
    var m := |all.memories|;
    var p := m + |all.prompts|;
    var s := p + |all.sessions|;
    Kept(
      Minus(|all.sessions|, Minus(k, p)), Minus(|all.prompts|, Minus(k, m)), Minus(|all.pinned|, Minus(k, s)),
      Minus(|all.memories|, k))
  }

  lemma AfterIsWithin(all: Sections, k: nat)
    ensures After(all, k).Within(all)
    ensures k <= all.Total() ==> Left(all, After(all, k)).Total() == k
  {
  }

  /** The block as it is after `k` drops. */
  function Draft(all: Sections, k: nat, budget: nat): seq<Line> {
    AfterIsWithin(all, k);
    Rendered(all, After(all, k), budget)
  }

  predicate Fits(all: Sections, k: nat, budget: nat) { Size(all, Draft(all, k, budget)) <= budget }

  function FirstFit(total: nat, fits: nat -> bool, k: nat): (r: nat)
    requires k <= total
    ensures k <= r <= total
    decreases total - k
  {
    if k == total || fits(k) then k else FirstFit(total, fits, k + 1)
  }

  lemma {:induction false} FirstFitIsFirst(total: nat, fits: nat -> bool, k: nat)
    requires k <= total
    ensures var r := FirstFit(total, fits, k); (r == total || fits(r)) && forall j | k <= j < r :: !fits(j)
    decreases total - k
  {
    if k < total && !fits(k) {
      FirstFitIsFirst(total, fits, k + 1);
    }
  }

  /** How many items the budget costs, once `k` have gone: the first draft that fits,
      or the one with nothing left to drop. */
  function Cuts(all: Sections, budget: nat, k: nat): (r: nat)
    requires k <= all.Total()
    ensures k <= r <= all.Total()
  {
    FirstFit(all.Total(), Fitting(all, budget), k)
  }

  function Fitting(all: Sections, budget: nat): nat -> bool { (j: nat) => Fits(all, j, budget) }

  lemma FittingIs(all: Sections, budget: nat, j: nat)
    ensures Fitting(all, budget)(j) == Fits(all, j, budget)
  {
  }

  lemma CutsIsTheFirst(all: Sections, budget: nat)
    ensures var r := Cuts(all, budget, 0);
            (r == all.Total() || Fits(all, r, budget)) && forall j | 0 <= j < r :: !Fits(all, j, budget)
  {
    FirstFitIsFirst(all.Total(), Fitting(all, budget), 0);
    var r := Cuts(all, budget, 0);
    FittingIs(all, budget, r);
    forall j | 0 <= j < r ensures !Fits(all, j, budget) { FittingIs(all, budget, j); }
  }

  /** How much of each section a block still carries. */
  class Shown {
    var sessions: nat
    var prompts: nat
    var pinned: nat
    var listed: seq<nat>

    constructor (all: Sections)
      ensures Is(After(all, 0))
    {
      sessions, prompts, pinned := |all.sessions|, |all.prompts|, |all.pinned|;
      listed := Upto(|all.memories|);
    }

    /** The titles still listed are the newest ones, none missing in between. */
    ghost predicate Is(kept: Kept)
      reads this
    {
      kept == Kept(sessions, prompts, pinned, |listed|) && listed == Upto(|listed|)
    }

    /** Drops one item, and says whether there was one to drop. */
    method DropOne(ghost all: Sections, ghost k: nat) returns (dropped: bool)
      requires Is(After(all, k)) && k <= all.Total()
      modifies this
      ensures dropped <==> k < all.Total()
      ensures Is(After(all, if dropped then k + 1 else k))
    {
      if listed != [] {
        listed := listed[..|listed| - 1];
        return true;
      }
      if prompts > 0 {
        prompts := prompts - 1;
        return true;
      }
      if sessions > 0 {
        sessions := sessions - 1;
        return true;
      }
      if pinned > 0 {
        pinned := pinned - 1;
        return true;
      }
      return false;
    }
  }

  method AppendItems(context: seq<Line>, kind: Kind, shown: seq<nat>) returns (r: seq<Line>)
    requires shown == Upto(|shown|)
    ensures r == context + ItemLines(kind, |shown|)
  {
    r := context;
    for i := 0 to |shown|
      invariant r == context + ItemLines(kind, i)
    {
      r := r + [Item(kind, shown[i])];
    }
  }

  method AppendSection(context: seq<Line>, kind: Kind, shown: seq<nat>) returns (r: seq<Line>)
    requires shown == Upto(|shown|)
    ensures r == context + Section(kind, |shown|)
  {
    r := context;
    if shown != [] {
      r := r + [Heading(kind)];
      r := AppendItems(r, kind, shown);
      r := r + [Blank];
    }
  }

  method AppendPinned(context: seq<Line>, pinned: nat, omitted: nat) returns (r: seq<Line>)
    ensures r == context + PinnedSection(pinned, omitted)
  {
    r := context;
    if pinned > 0 || omitted > 0 {
      r := r + [Heading(Pin)];
      r := AppendItems(r, Pin, Upto(pinned));
      if omitted > 0 {
        r := r + [MorePinned(omitted)];
      }
      r := r + [Blank];
    }
  }

  method RenderContext(all: Sections, shown: Shown, ghost kept: Kept, budget: nat) returns (context: seq<Line>)
    requires kept.Within(all) && shown.Is(kept)
    ensures context == Rendered(all, kept, budget)
  {
    context := [Opening];
    context := AppendSection(context, Session, Upto(shown.sessions));
    context := AppendSection(context, Prompt, Upto(shown.prompts));
    context := AppendPinned(context, shown.pinned, all.pinnedOmitted);
    context := AppendSection(context, Memory, shown.listed);
    assert context == Body(all, kept);
    context := AppendCut(context, all, shown, kept, budget);
  }

  /** What did not make it in is announced, if there is any. */
  method AppendCut(context: seq<Line>, all: Sections, shown: Shown, ghost kept: Kept, budget: nat) returns (r: seq<Line>)
    requires kept.Within(all) && shown.Is(kept)
    ensures r == context + CutLines(budget, Left(all, kept))
  {
    r := context;
    var left := Kept(
      |all.sessions| - shown.sessions, |all.prompts| - shown.prompts, |all.pinned| - shown.pinned, |all.memories| - |shown.listed|);
    if left.memories + left.pinned + left.prompts + left.sessions > 0 {
      r := r + [CutLine(budget, left)];
    }
  }

  /** The block: nothing for four empty lists, otherwise the draft the dropping stops at. */
  function Block(all: Sections, budget: nat): seq<Line> {
    if all.Empty() then [] else Draft(all, Cuts(all, budget, 0), budget)
  }

  /** The block, and how many memories it names. */
  method FormatContextCounted(all: Sections, budget: nat) returns (context: seq<Line>, named: nat)
    ensures context == Block(all, budget)
    ensures named == |Only(Pin, context)| + |Only(Memory, context)|
    ensures |Text(all, context)| <= budget || named == 0
    ensures MorePinned(all.pinnedOmitted) in context <==> all.pinnedOmitted > 0 && !all.Empty()
  {
    if all.sessions == [] && all.prompts == [] && all.pinned == [] && all.memories == [] {
      return [], 0;
    }
    var shown := new Shown(all);
    context := FirstFitting(all, shown, budget);
    named := shown.pinned + |shown.listed|;
    DraftNames(all, Cuts(all, budget, 0), budget);
    OmittedPinsAreSaid(all, budget);
    if |Text(all, context)| > budget {
      OverBudgetIsBare(all, budget, Pin);
      OverBudgetIsBare(all, budget, Memory);
    }
  }

  /** The loop: drop until it fits. */
  method FirstFitting(all: Sections, shown: Shown, budget: nat) returns (context: seq<Line>)
    requires shown.Is(After(all, 0))
    modifies shown
    ensures context == Draft(all, Cuts(all, budget, 0), budget) && shown.Is(After(all, Cuts(all, budget, 0)))
  {
    ghost var k := 0;
    context := [];
    var done := false;
    while !done
      invariant k <= all.Total() && shown.Is(After(all, k))
      invariant Cuts(all, budget, 0) == Cuts(all, budget, k)
      invariant done ==> Cuts(all, budget, k) == k && context == Draft(all, k, budget)
      decreases !done, all.Total() - k
    {
      context, done := Attempt(all, shown, k, budget);
      if !done {
        k := k + 1;
      }
    }
  }

  /** One round: render, and drop one item if that is over budget and there is one. */
  method Attempt(all: Sections, shown: Shown, ghost k: nat, budget: nat) returns (context: seq<Line>, done: bool)
    requires k <= all.Total() && shown.Is(After(all, k))
    modifies shown
    ensures context == Draft(all, k, budget)
    ensures shown.Is(After(all, if done then k else k + 1)) && (!done ==> k < all.Total())
    ensures Cuts(all, budget, k) == if done then k else Cuts(all, budget, k + 1)
  {
    AfterIsWithin(all, k);
    context := RenderContext(all, shown, After(all, k), budget);
    DraftDecides(all, k, budget);
    if Size(all, context) <= budget {
      return context, true;
    }
    var dropped := shown.DropOne(all, k);
    return context, !dropped;
  }

  lemma DraftDecides(all: Sections, k: nat, budget: nat)
    requires k <= all.Total()
    ensures var fits := Size(all, Draft(all, k, budget)) <= budget;
            Cuts(all, budget, k) == if k == all.Total() || fits then k else Cuts(all, budget, k + 1)
  {
    assert Fitting(all, budget)(k) == Fits(all, k, budget);
  }

  /// What the block says

  /** The items of this kind that the text has a line for. */
  function Only(kind: Kind, lines: seq<Line>): seq<nat> {
    if lines == [] then []
    else
      var (front, last) := (Only(kind, lines[..|lines| - 1]), lines[|lines| - 1]);
      if last.Item? && last.kind == kind then front + [last.index] else front
  }

  /** How many of this kind the text says it leaves out. */
  function Announced(kind: Kind, lines: seq<Line>): nat {
    if lines == [] then 0
    else
      var (front, last) := (Announced(kind, lines[..|lines| - 1]), lines[|lines| - 1]);
      if last.CutLine? then front + last.left.Of(kind) else front
  }

  ghost predicate NothingAnnounced(lines: seq<Line>) { forall kind :: Announced(kind, lines) == 0 }

  lemma {:induction false} OnlyAppends(kind: Kind, a: seq<Line>, b: seq<Line>)
    ensures Only(kind, a + b) == Only(kind, a) + Only(kind, b)
    ensures Announced(kind, a + b) == Announced(kind, a) + Announced(kind, b)
  {
    if b == [] {
      assert a + b == a;
    } else {
      OnlyAppends(kind, a, b[..|b| - 1]);
      assert (a + b)[..|a + b| - 1] == a + b[..|b| - 1];
    }
  }

  lemma OnlyPush(kind: Kind, text: seq<Line>, line: Line)
    ensures Only(kind, text + [line]) == Only(kind, text) + if line.Item? && line.kind == kind then [line.index] else []
    ensures Announced(kind, text + [line]) == Announced(kind, text) + if line.CutLine? then line.left.Of(kind) else 0
  {
    assert (text + [line])[..|text|] == text;
  }

  lemma {:induction false} OnlyItems(kind: Kind, other: Kind, n: nat)
    ensures Only(kind, ItemLines(other, n)) == if kind == other then Upto(n) else []
    ensures Announced(kind, ItemLines(other, n)) == 0
  {
    if n > 0 {
      OnlyItems(kind, other, n - 1);
      OnlyPush(kind, ItemLines(other, n - 1), Item(other, n - 1));
    }
  }

  lemma OnlyNext(kind: Kind, text: seq<Line>, part: seq<Line>)
    ensures Only(kind, part) == [] ==> Only(kind, text + part) == Only(kind, text)
    ensures Only(kind, text) == [] ==> Only(kind, text + part) == Only(kind, part)
    ensures Announced(kind, text + part) == Announced(kind, text) + Announced(kind, part)
  {
    OnlyAppends(kind, text, part);
  }

  lemma OnlyFramed(kind: Kind, other: Kind, inside: seq<Line>)
    ensures Only(kind, [Heading(other)] + inside + [Blank]) == Only(kind, inside)
    ensures Announced(kind, [Heading(other)] + inside + [Blank]) == Announced(kind, inside)
  {
    OnlyNext(kind, [Heading(other)], inside);
    OnlyNext(kind, [Heading(other)] + inside, [Blank]);
  }

  lemma OnlySection(kind: Kind, other: Kind, n: nat)
    ensures Only(kind, Section(other, n)) == if kind == other then Upto(n) else []
    ensures Announced(kind, Section(other, n)) == 0
  {
    OnlyItems(kind, other, n);
    OnlyFramed(kind, other, ItemLines(other, n));
  }

  lemma OnlyPinLines(kind: Kind, n: nat, omitted: nat)
    ensures Only(kind, PinLines(n, omitted)) == if kind == Pin then Upto(n) else []
    ensures Announced(kind, PinLines(n, omitted)) == 0
  {
    OnlyItems(kind, Pin, n);
    OnlyNext(kind, ItemLines(Pin, n), if omitted > 0 then [MorePinned(omitted)] else []);
  }

  lemma OnlyPinned(kind: Kind, n: nat, omitted: nat)
    ensures Only(kind, PinnedSection(n, omitted)) == if kind == Pin then Upto(n) else []
    ensures Announced(kind, PinnedSection(n, omitted)) == 0
  {
    OnlyPinLines(kind, n, omitted);
    OnlyFramed(kind, Pin, PinLines(n, omitted));
  }

  /** A text shows the newest of each kind, in order and once each, and says exactly
      how many more there are. */
  lemma RenderedSays(all: Sections, kept: Kept, budget: nat, kind: Kind)
    requires kept.Within(all)
    ensures Only(kind, Rendered(all, kept, budget)) == Upto(kept.Of(kind))
    ensures Announced(kind, Rendered(all, kept, budget)) == |all.Items(kind)| - kept.Of(kind)
  {
    BodySays(all, kept, kind);
    OnlyCut(kind, budget, Left(all, kept));
    OnlyNext(kind, Body(all, kept), CutLines(budget, Left(all, kept)));
  }

  ghost predicate Holds(kind: Kind, part: seq<Line>, other: Kind, n: nat) {
    Only(kind, part) == (if kind == other then Upto(n) else []) && Announced(kind, part) == 0
  }

  lemma {:induction false} PartsSay(kind: Kind, a: seq<Line>, b: seq<Line>, c: seq<Line>, d: seq<Line>, n: nat)
    requires Holds(kind, a, Session, n) && Holds(kind, b, Prompt, n) && Holds(kind, c, Pin, n) && Holds(kind, d, Memory, n)
    ensures Only(kind, [Opening] + a + b + c + d) == Upto(n) && Announced(kind, [Opening] + a + b + c + d) == 0
  {
    OnlyNext(kind, [Opening], a);
    OnlyNext(kind, [Opening] + a, b);
    OnlyNext(kind, [Opening] + a + b, c);
    OnlyNext(kind, [Opening] + a + b + c, d);
  }

  lemma {:induction false} BodySays(all: Sections, kept: Kept, kind: Kind)
    ensures Only(kind, Body(all, kept)) == Upto(kept.Of(kind)) && Announced(kind, Body(all, kept)) == 0
  {
    OnlySection(kind, Session, kept.sessions);
    OnlySection(kind, Prompt, kept.prompts);
    OnlyPinned(kind, kept.pinned, all.pinnedOmitted);
    OnlySection(kind, Memory, kept.memories);
    PartsSay(
      kind, Section(Session, kept.sessions), Section(Prompt, kept.prompts), PinnedSection(kept.pinned, all.pinnedOmitted),
      Section(Memory, kept.memories), kept.Of(kind));
  }

  lemma OnlyCut(kind: Kind, budget: nat, left: Kept)
    ensures Only(kind, CutLines(budget, left)) == [] && Announced(kind, CutLines(budget, left)) == left.Of(kind)
  {
  }

  lemma DraftSays(all: Sections, k: nat, budget: nat, kind: Kind)
    requires k <= all.Total()
    ensures Only(kind, Draft(all, k, budget)) == Upto(After(all, k).Of(kind))
    ensures |Only(kind, Draft(all, k, budget))| + Announced(kind, Draft(all, k, budget)) == |all.Items(kind)|
  {
    AfterIsWithin(all, k);
    RenderedSays(all, After(all, k), budget, kind);
  }

  lemma DraftNames(all: Sections, k: nat, budget: nat)
    requires k <= all.Total()
    ensures var kept := After(all, k);
            kept.pinned + kept.memories == |Only(Pin, Draft(all, k, budget))| + |Only(Memory, Draft(all, k, budget))|
  {
    DraftSays(all, k, budget, Pin);
    DraftSays(all, k, budget, Memory);
  }

  /** Nothing goes before everything less important has: titles, prompts, sessions, pins. */
  lemma PinsGoLast(all: Sections, k: nat)
    requires k <= all.Total()
    ensures var kept := After(all, k);
            && (kept.prompts < |all.prompts| ==> kept.memories == 0)
            && (kept.sessions < |all.sessions| ==> kept.memories == kept.prompts == 0)
            && (kept.pinned < |all.pinned| ==> kept.memories == kept.prompts == kept.sessions == 0)
    ensures Left(all, After(all, k)).Total() == k
  {
  }

  /// Budgets

  lemma {:induction false} DigitsGrowBy(a: nat, b: nat)
    requires a <= b
    ensures |Digits(a)| <= |Digits(b)| <= |Digits(a)| + (b - a)
    decreases b
  {
    if a < b {
      DigitsGrowBy(a, b - 1);
      DigitsGrow(b - 1);
    }
  }

  /** What fits a budget fits a larger one, although the cut line spells the
      budget out and the larger one may take more digits. */
  lemma FitsStill(all: Sections, k: nat, budget: nat, larger: nat)
    requires budget <= larger && Fits(all, k, budget)
    ensures Fits(all, k, larger)
  {
    AfterIsWithin(all, k);
    var (body, left) := (Body(all, After(all, k)), Left(all, After(all, k)));
    SizeAppends(all, body, CutLines(budget, left));
    SizeAppends(all, body, CutLines(larger, left));
    DigitsGrowBy(budget, larger);
  }

  lemma CutsFall(all: Sections, budget: nat, larger: nat)
    requires budget <= larger
    ensures Cuts(all, larger, 0) <= Cuts(all, budget, 0)
  {
    var k := Cuts(all, budget, 0);
    CutsIsTheFirst(all, budget);
    CutsIsTheFirst(all, larger);
    if k < all.Total() {
      FitsStill(all, k, budget, larger);
    }
  }

  lemma AfterShrinks(all: Sections, j: nat, k: nat, kind: Kind)
    requires j <= k
    ensures After(all, k).Of(kind) <= After(all, j).Of(kind)
  {
  }

  /** A larger budget never shows less of anything. */
  lemma LargerBudgetShowsNoLess(all: Sections, budget: nat, larger: nat, kind: Kind)
    requires budget <= larger
    ensures |Only(kind, Draft(all, Cuts(all, budget, 0), budget))| <= |Only(kind, Draft(all, Cuts(all, larger, 0), larger))|
  {
    var (j, k) := (Cuts(all, larger, 0), Cuts(all, budget, 0));
    CutsFall(all, budget, larger);
    AfterShrinks(all, j, k, kind);
    DraftSays(all, j, larger, kind);
    DraftSays(all, k, budget, kind);
  }

  /** A block over its budget is one that shows no item at all. */
  lemma OverBudgetIsBare(all: Sections, budget: nat, kind: Kind)
    requires |Text(all, Draft(all, Cuts(all, budget, 0), budget))| > budget
    ensures Only(kind, Draft(all, Cuts(all, budget, 0), budget)) == []
  {
    SizeIsLength(all, Draft(all, Cuts(all, budget, 0), budget));
    CutsIsTheFirst(all, budget);
    LastDraftIsBare(all, budget, kind);
  }

  lemma NotBefore(all: Sections, budget: nat, j: nat)
    requires j < Cuts(all, budget, 0)
    ensures !Fits(all, j, budget)
  {
    CutsIsTheFirst(all, budget);
  }

  /** Nothing is left out for nothing: with any items more the block would not have fit. */
  lemma {:induction false} NothingIsCutForNothing(all: Sections, budget: nat, j: nat)
    requires j < Cuts(all, budget, 0)
    ensures |Text(all, Draft(all, j, budget))| > budget
  {
    NotBefore(all, budget, j);
    OneMoreIsTooMuch(all, j, budget);
  }

  /** A block announces a cut exactly when something was dropped. */
  lemma {:induction false} AnnouncedIffCut(all: Sections, budget: nat)
    ensures var k := Cuts(all, budget, 0); k == 0 <==> NothingAnnounced(Draft(all, k, budget))
  {
    LeftOfEach(all, Cuts(all, budget, 0), budget);
  }

  lemma OneMoreIsTooMuch(all: Sections, k: nat, budget: nat)
    requires !Fits(all, k, budget)
    ensures |Text(all, Draft(all, k, budget))| > budget
  {
    SizeIsLength(all, Draft(all, k, budget));
  }

  lemma LeftOfEach(all: Sections, k: nat, budget: nat)
    requires k <= all.Total()
    ensures k == 0 <==> NothingAnnounced(Draft(all, k, budget))
  {
    var lines := Draft(all, k, budget);
    LeftOver(all, k, budget, Memory);
    LeftOver(all, k, budget, Prompt);
    LeftOver(all, k, budget, Session);
    LeftOver(all, k, budget, Pin);
    AfterIsWithin(all, k);
    assert Announced(Memory, lines) + Announced(Prompt, lines) + Announced(Session, lines) + Announced(Pin, lines) == k;
    if k == 0 {
      forall kind ensures Announced(kind, lines) == 0 { LeftOver(all, k, budget, kind); }
    }
  }

  lemma LeftOver(all: Sections, k: nat, budget: nat, kind: Kind)
    requires k <= all.Total()
    ensures Announced(kind, Draft(all, k, budget)) == |all.Items(kind)| - After(all, k).Of(kind)
  {
    AfterIsWithin(all, k);
    DraftSays(all, k, budget, kind);
  }

  lemma LastDraftIsBare(all: Sections, budget: nat, kind: Kind)
    ensures Only(kind, Draft(all, all.Total(), budget)) == []
  {
    DraftSays(all, all.Total(), budget, kind);
    AfterAllIsNothing(all, kind);
  }

  lemma AfterAllIsNothing(all: Sections, kind: Kind)
    ensures After(all, all.Total()).Of(kind) == 0
  {
  }

  /** Pins the store itself left out are said if and only if there is anything else
      to show. */
  lemma OmittedPinsAreSaid(all: Sections, budget: nat)
    ensures MorePinned(all.pinnedOmitted) in Block(all, budget) <==> all.pinnedOmitted > 0 && !all.Empty()
  {
    if !all.Empty() {
      AfterIsWithin(all, Cuts(all, budget, 0));
      SaidInBody(all, After(all, Cuts(all, budget, 0)));
    }
  }

  /** Three pins left out, nothing to show, and not a word. */
  lemma OmittedPinsGoUnsaid(budget: nat)
    ensures var all := Sections([], [], [], 3, []); Block(all, budget) == [] && all.pinnedOmitted == 3
  {
  }

  lemma SaidInBody(all: Sections, kept: Kept)
    ensures MorePinned(all.pinnedOmitted) in Body(all, kept) <==> all.pinnedOmitted > 0
  {
    NoneInSection(Session, kept.sessions, all.pinnedOmitted);
    NoneInSection(Prompt, kept.prompts, all.pinnedOmitted);
    NoneInSection(Memory, kept.memories, all.pinnedOmitted);
    SaidWithPins(kept.pinned, all.pinnedOmitted);
  }

  lemma SaidWithPins(n: nat, omitted: nat)
    ensures MorePinned(omitted) in PinnedSection(n, omitted) <==> omitted > 0
  {
    NoneInItems(Pin, n, omitted);
  }

  lemma NoneInSection(kind: Kind, n: nat, omitted: nat)
    ensures MorePinned(omitted) !in Section(kind, n)
  {
    NoneInItems(kind, n, omitted);
  }

  lemma {:induction false} NoneInItems(kind: Kind, n: nat, omitted: nat)
    ensures MorePinned(omitted) !in ItemLines(kind, n)
  {
    if n > 0 { NoneInItems(kind, n - 1, omitted); }
  }
}
