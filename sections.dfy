/**
 * Section framing and dispatch: how a section is bracketed on write, how a
 * reader positioned just after a SECTION marker picks the reader for the
 * named section, and how an unknown section is skipped.
 */
module DxfSections {
  import opened Wrappers
  import opened CodePairs

  const HeaderSectionText := "HEADER"
  const ClassesSectionText := "CLASSES"
  const TablesSectionText := "TABLES"
  const BlocksSectionText := "BLOCKS"
  const EntitiesSectionText := "ENTITIES"
  const ObjectsSectionText := "OBJECTS"
  const ThumbnailImageSectionText := "THUMBNAILIMAGE"

  const SectionText := "SECTION"
  const EndSectionText := "ENDSEC"

  const TableText := "TABLE"
  const EndTableText := "ENDTAB"

  /** The section kinds that have a reader of their own. */
  datatype SectionType = Header | Classes | Tables | Blocks | Entities | Objects | ThumbnailImage

  function ToSectionName(t: SectionType): string
  {
    match t
    case Header => HeaderSectionText
    case Classes => ClassesSectionText
    case Tables => TablesSectionText
    case Blocks => BlocksSectionText
    case Entities => EntitiesSectionText
    case Objects => ObjectsSectionText
    case ThumbnailImage => ThumbnailImageSectionText
  }

  /**
   * The switch on the name string: each of the seven names selects its own
   * section kind and every other string selects none.
   */
  function NameToType(name: string): (r: Option<SectionType>)
    ensures forall t :: r == Some(t) <==> ToSectionName(t) == name
  {
    if name == BlocksSectionText then Some(Blocks)
    else if name == ClassesSectionText then Some(Classes)
    else if name == EntitiesSectionText then Some(Entities)
    else if name == HeaderSectionText then Some(Header)
    else if name == ObjectsSectionText then Some(Objects)
    else if name == TablesSectionText then Some(Tables)
    else if name == ThumbnailImageSectionText then Some(ThumbnailImage)
    else None
  }

  /** The section names are pairwise distinct, so a name picks at most one reader. */
  lemma SectionNamesDistinct(t1: SectionType, t2: SectionType)
    ensures ToSectionName(t1) == ToSectionName(t2) <==> t1 == t2
  {
  }

  function SectionStartPair(): CodePair { CodePair(0, Text(SectionText)) }
  function SectionNamePair(t: SectionType): CodePair { CodePair(2, Text(ToSectionName(t))) }
  function SectionEndPair(): CodePair { CodePair(0, Text(EndSectionText)) }

  /** The end-of-section test on a pair read from the stream. */
  predicate IsSectionEnd(p: CodePair)
  {
    p.code == 0 && p.value == Text(EndSectionText)
  }

  /**
   * The pairs written for a section: its own pairs, in their order, between
   * the SECTION marker with the section's name and the ENDSEC marker.
   */
  function GetValuePairs(t: SectionType, specific: seq<CodePair>): (r: seq<CodePair>)
    ensures |r| == |specific| + 3
    ensures r[0] == SectionStartPair() && r[1] == SectionNamePair(t)
    ensures r[2..|r| - 1] == specific
    ensures IsSectionEnd(r[|r| - 1])
  {
    [SectionStartPair(), SectionNamePair(t)] + specific + [SectionEndPair()]
  }

  /** What FromBuffer does with the name pair it consumed. */
  datatype FromBufferResult =
    | Delegated(t: SectionType)   // handed to the reader of section kind t
    | Swallowed                   // an unknown section, skipped: the C# FromBuffer returns null
    | ReadError(pair: CodePair)   // the pair after SECTION did not have group code 2

  /** A pair's text for the name switch; a non-text value matches no name. */
  function NameOf(p: CodePair): string
  {
    if p.value.Text? then p.value.s else ""
  }

  function Dispatch(p: CodePair): (r: FromBufferResult)
    ensures r.ReadError? <==> p.code != 2
    ensures r.ReadError? ==> r.pair == p
    ensures forall t :: r == Delegated(t) <==> p.code == 2 && NameOf(p) == ToSectionName(t)
    ensures r == Swallowed <==> p.code == 2 && NameToType(NameOf(p)) == None
  {
    if p.code != 2 then ReadError(p)
    else
      match NameToType(NameOf(p))
      case Some(t) => Delegated(t)
      case None => Swallowed
  }

  /**
   * Where skipping from `start` stops: just past the first section end at or
   * after `start`, or at the end of the items when there is none.
   */
  function SwallowEnd(items: seq<CodePair>, start: nat): (e: nat)
    requires start <= |items|
    ensures start <= e <= |items|
    decreases |items| - start
  {
    if start == |items| then start
    else if IsSectionEnd(items[start]) then start + 1
    else SwallowEnd(items, start + 1)
  }

  /**
   * Skipping ends in one of two ways: the items ran out and none of the
   * skipped pairs ended a section, or the last skipped pair ends a section
   * and none before it did.
   */
  lemma {:induction false} SwallowEndOutcome(items: seq<CodePair>, start: nat)
    requires start <= |items|
    ensures var e := SwallowEnd(items, start);
      (e == |items| && forall i :: start <= i < e ==> !IsSectionEnd(items[i])) ||
      (start < e && IsSectionEnd(items[e - 1]) && forall i :: start <= i < e - 1 ==> !IsSectionEnd(items[i]))
    decreases |items| - start
  {
    if start < |items| && !IsSectionEnd(items[start]) {
      SwallowEndOutcome(items, start + 1);
    }
  }

  /** Skipping stops just past the first section end. */
  lemma {:induction false} SwallowEndAtFirst(items: seq<CodePair>, start: nat, k: nat)
    requires start <= k < |items|
    requires IsSectionEnd(items[k])
    requires forall i :: start <= i < k ==> !IsSectionEnd(items[i])
    ensures SwallowEnd(items, start) == k + 1
    decreases k - start
  {
    if start < k {
      SwallowEndAtFirst(items, start + 1, k);
    }
  }

  /** With no section end left, skipping consumes everything. */
  lemma {:induction false} SwallowEndExhausts(items: seq<CodePair>, start: nat)
    requires start <= |items|
    requires forall i :: start <= i < |items| ==> !IsSectionEnd(items[i])
    ensures SwallowEnd(items, start) == |items|
    decreases |items| - start
  {
    if start < |items| {
      SwallowEndExhausts(items, start + 1);
    }
  }

  /** Consume pairs up to and including the first section end, or to the end of input. */
  method SwallowSection(buffer: PairBuffer)
    requires buffer.Valid()
    modifies buffer
    ensures buffer.Valid()
    ensures buffer.position == SwallowEnd(buffer.items, old(buffer.position))
  {
    ghost var start := buffer.position;
    while buffer.ItemsRemain()
      invariant buffer.Valid() && start <= buffer.position
      invariant SwallowEnd(buffer.items, start) == SwallowEnd(buffer.items, buffer.position)
      decreases |buffer.items| - buffer.position
    {
      var pair := buffer.Peek();
      buffer.Advance();
      if IsSectionEnd(pair) {
        break;
      }
    }
  }

  /**
   * Read the pair that follows a SECTION marker: it must carry group code 2;
   * a known name hands the buffer, positioned just past that pair, to the
   * section's reader; an unknown name skips the whole section.
   */
  method FromBuffer(buffer: PairBuffer) returns (r: FromBufferResult)
    requires buffer.Valid() && buffer.ItemsRemain()
    modifies buffer
    ensures buffer.Valid()
    ensures r == Dispatch(old(buffer.Peek()))
    ensures buffer.position ==
      if r.Swallowed? then SwallowEnd(buffer.items, old(buffer.position) + 1)
      else old(buffer.position) + 1
  {
    var sectionType := buffer.Peek();
    buffer.Advance();
    if sectionType.code != 2 {
      return ReadError(sectionType);
    }
    match NameToType(NameOf(sectionType))
    case Some(t) =>
      r := Delegated(t);
    case None =>
      SwallowSection(buffer);
      r := Swallowed;
  }

  /**
   * Reading back a written section: the name pair after the SECTION marker
   * selects the section's own reader, and skipping from there stops exactly
   * at the section's ENDSEC, leaving whatever follows, provided the
   * section's own pairs hold no section end.
   */
  lemma FramedSectionReadsBack(t: SectionType, specific: seq<CodePair>, rest: seq<CodePair>)
    requires forall i :: 0 <= i < |specific| ==> !IsSectionEnd(specific[i])
    ensures var s := GetValuePairs(t, specific) + rest;
      s[0] == SectionStartPair() && Dispatch(s[1]) == Delegated(t) &&
      SwallowEnd(s, 2) == |specific| + 3 && s[|specific| + 3..] == rest
  {
    var framed := GetValuePairs(t, specific);
    var s := framed + rest;
    assert s[2..|framed| - 1] == specific;
    forall i | 2 <= i < |framed| - 1
      ensures !IsSectionEnd(s[i])
    {
      assert s[i] == specific[i - 2];
    }
    SwallowEndAtFirst(s, 2, |framed| - 1);
  }

  /**
   * Reading an unknown section: the name pair selects no reader, and
   * skipping from just after it stops right after the section's ENDSEC,
   * so reading resumes at whatever follows, provided the section's pairs
   * hold no section end.
   */
  lemma UnknownSectionSkipped(name: string, specific: seq<CodePair>, rest: seq<CodePair>)
    requires NameToType(name) == None
    requires forall i :: 0 <= i < |specific| ==> !IsSectionEnd(specific[i])
    ensures var s := [CodePair(2, Text(name))] + specific + [SectionEndPair()] + rest;
      Dispatch(s[0]) == Swallowed &&
      SwallowEnd(s, 1) == |specific| + 2 && s[|specific| + 2..] == rest
  {
    var s := [CodePair(2, Text(name))] + specific + [SectionEndPair()] + rest;
    forall i | 1 <= i < |specific| + 1
      ensures !IsSectionEnd(s[i])
    {
      assert s[i] == specific[i - 1];
    }
    assert s[|specific| + 1] == SectionEndPair();
    SwallowEndAtFirst(s, 1, |specific| + 1);
    assert s[|specific| + 2..] == rest;
  }
}
