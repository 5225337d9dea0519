/**
 * The sun-study object: its fields, their initial values, and the ordered
 * code pairs it appends after its base class's pairs when written.
 */
module SunStudyObjects {
  import opened Wrappers
  import opened CodePairs

  /** A snapshot of the object's fields. */
  datatype SunStudyFields = SunStudyFields(
    version: int32,
    sunSetupName: Option<string>,
    description: Option<string>,
    outputType: int16,
    sheetSetName: Option<string>,
    useSubset: bool,
    sheetSubsetName: Option<string>,
    selectDatesFromCalendar: bool,
    dates: seq<DateTime>,
    selectRangeOfDates: bool,
    startTimeSecondsPastMidnight: int32,
    endTimeSecondsPastMidnight: int32,
    intervalInSeconds: int32,
    hours: seq<int32>,
    pageSetupWizardPointer: uint32,
    viewPointer: uint32,
    visualStyleId: uint32,
    shadePlotType: int16,
    viewportsPerPage: int32,
    viewportDistributionRowCount: int32,
    viewportDistributionColumnCount: int32,
    spacing: Double,
    lockViewports: bool,
    labelViewports: bool,
    textStyleId: uint32)

  /** A list's element count is an `int`, so the two lists stay below 2^31 elements. */
  predicate ListsFit(f: SunStudyFields)
  {
    |f.dates| < 0x8000_0000 && |f.hours| < 0x8000_0000
  }

  /** The field values Initialize assigns. */
  function InitialFields(): SunStudyFields
  {
    SunStudyFields(0, None, None, 0, None, false, None, false, [], false, 0, 0, 0, [],
                   0, 0, 0, 0, 0, 0, 0, ZeroDouble, false, false, 0)
  }

  /** The pairs from the subclass marker up to the date count. */
  function HeadPairs(f: SunStudyFields): seq<CodePair>
    requires ListsFit(f)
  {
    [CodePair(100, Text("AcDbSunStudy")),
     CodePair(90, Int(f.version)),
     CodePair(1, TextOf(f.sunSetupName)),
     CodePair(2, TextOf(f.description)),
     CodePair(70, Short(f.outputType)),
     CodePair(3, TextOf(f.sheetSetName)),
     CodePair(290, Bool(f.useSubset)),
     CodePair(4, TextOf(f.sheetSubsetName)),
     CodePair(291, Bool(f.selectDatesFromCalendar)),
     CodePair(91, Int(|f.dates| as int32))]
  }

  /** Two pairs per date, both with code 90: the truncated and the full date double. */
  function DatePairs(dates: seq<DateTime>): (r: seq<CodePair>)
    ensures |r| == 2 * |dates|
  {
    if dates == [] then []
    else
      var n := |dates| - 1;
      DatePairs(dates[..n]) + [CodePair(90, DateWhole(dates[n])), CodePair(90, DateReal(dates[n]))]
  }

  /** The i-th date's two pairs sit at positions 2i and 2i + 1. */
  lemma {:induction false} DatePairsAt(dates: seq<DateTime>, i: nat)
    requires i < |dates|
    ensures DatePairs(dates)[2 * i] == CodePair(90, DateWhole(dates[i]))
    ensures DatePairs(dates)[2 * i + 1] == CodePair(90, DateReal(dates[i]))
  {
    var n := |dates| - 1;
    if i < n {
      DatePairsAt(dates[..n], i);
    }
  }

  /** The range flag, then the three range fields only when it is set. */
  function RangePairs(f: SunStudyFields): seq<CodePair>
  {
    [CodePair(292, Bool(f.selectRangeOfDates))] +
    (if f.selectRangeOfDates then
       [CodePair(93, Int(f.startTimeSecondsPastMidnight)),
        CodePair(94, Int(f.endTimeSecondsPastMidnight)),
        CodePair(95, Int(f.intervalInSeconds))]
     else [])
  }

  /** One code-290 pair per hour, each hour cast to a short. */
  function HourPairs(hours: seq<int32>): seq<CodePair>
  {
    seq(|hours|, j requires 0 <= j < |hours| => CodePair(290, Short(ToShort(hours[j]))))
  }

  /** The pairs after the hours, ending with the text style handle. */
  function TailPairs(f: SunStudyFields): seq<CodePair>
  {
    [CodePair(340, Handle(f.pageSetupWizardPointer)),
     CodePair(341, Handle(f.viewPointer)),
     CodePair(342, Handle(f.visualStyleId)),
     CodePair(74, Short(f.shadePlotType)),
     CodePair(75, Short(ToShort(f.viewportsPerPage))),
     CodePair(76, Short(ToShort(f.viewportDistributionRowCount))),
     CodePair(77, Short(ToShort(f.viewportDistributionColumnCount))),
     CodePair(40, Real(f.spacing)),
     CodePair(293, Bool(f.lockViewports)),
     CodePair(294, Bool(f.labelViewports)),
     CodePair(343, Handle(f.textStyleId))]
  }

  /** The count pair for the hours: the count is cast to a short. */
  function HourCountPair(f: SunStudyFields): CodePair
    requires ListsFit(f)
  {
    CodePair(73, Short(ToShort(|f.hours| as int32)))
  }

  /** Everything the object appends after its base class's pairs. */
  function SunStudyPairs(f: SunStudyFields): (r: seq<CodePair>)
    requires ListsFit(f)
    ensures |r| == 23 + 2 * |f.dates| + |f.hours| + (if f.selectRangeOfDates then 3 else 0)
  {
    HeadPairs(f) + DatePairs(f.dates) + RangePairs(f) + [HourCountPair(f)] + HourPairs(f.hours) + TailPairs(f)
  }

  /** `n` copies of `x`. */
  function Repeat(x: int, n: nat): seq<int>
  {
    seq(n, i => x)
  }

  /**
   * The code order written for a sun study, determined by the two list
   * lengths and the range flag alone.
   */
  function ExpectedCodes(dateCount: nat, hourCount: nat, range: bool): seq<int>
  {
    [100, 90, 1, 2, 70, 3, 290, 4, 291, 91] + Repeat(90, 2 * dateCount) +
    [292] + (if range then [93, 94, 95] else []) +
    [73] + Repeat(290, hourCount) +
    [340, 341, 342, 74, 75, 76, 77, 40, 293, 294, 343]
  }

  lemma {:induction false} DateCodes(dates: seq<DateTime>)
    ensures Codes(DatePairs(dates)) == Repeat(90, 2 * |dates|)
  {
    var r := DatePairs(dates);
    forall k | 0 <= k < |r|
      ensures r[k].code == 90
    {
      DatePairsAt(dates, k / 2);
    }
  }

  lemma FixedBlockCodes(f: SunStudyFields)
    requires ListsFit(f)
    ensures Codes(HeadPairs(f)) == [100, 90, 1, 2, 70, 3, 290, 4, 291, 91]
    ensures Codes(RangePairs(f)) == [292] + (if f.selectRangeOfDates then [93, 94, 95] else [])
    ensures Codes([HourCountPair(f)]) == [73]
    ensures Codes(HourPairs(f.hours)) == Repeat(290, |f.hours|)
    ensures Codes(TailPairs(f)) == [340, 341, 342, 74, 75, 76, 77, 40, 293, 294, 343]
  {
  }

  /** The codes written depend only on the list lengths and the range flag. */
  lemma EmittedCodes(f: SunStudyFields)
    requires ListsFit(f)
    ensures Codes(SunStudyPairs(f)) == ExpectedCodes(|f.dates|, |f.hours|, f.selectRangeOfDates)
  {
    var h, d, g, c, o, t := HeadPairs(f), DatePairs(f.dates), RangePairs(f), [HourCountPair(f)], HourPairs(f.hours), TailPairs(f);
    CodesAppend(h, d);
    CodesAppend(h + d, g);
    CodesAppend(h + d + g, c);
    CodesAppend(h + d + g + c, o);
    CodesAppend(h + d + g + c + o, t);
    DateCodes(f.dates);
    FixedBlockCodes(f);
  }

  /** Two objects with the same list lengths and range flag write the same code order. */
  lemma CodesDependOnlyOnShape(f: SunStudyFields, g: SunStudyFields)
    requires ListsFit(f) && ListsFit(g)
    requires |f.dates| == |g.dates| && |f.hours| == |g.hours|
    requires f.selectRangeOfDates == g.selectRangeOfDates
    ensures Codes(SunStudyPairs(f)) == Codes(SunStudyPairs(g))
  {
    EmittedCodes(f);
    EmittedCodes(g);
  }

  /** The first appended pair is the subclass marker; the last has code 343. */
  lemma FirstAndLastPairs(f: SunStudyFields)
    requires ListsFit(f)
    ensures var r := SunStudyPairs(f);
      r[0] == CodePair(100, Text("AcDbSunStudy")) && r[|r| - 1] == CodePair(343, Handle(f.textStyleId))
  {
  }

  /**
   * The date count at index 9 is followed by two code-90 pairs per date, in
   * list order, and then by the range flag.
   */
  lemma DateBlock(f: SunStudyFields)
    requires ListsFit(f)
    ensures var r := SunStudyPairs(f);
      r[9] == CodePair(91, Int(|f.dates| as int32)) &&
      (forall i :: 0 <= i < |f.dates| ==>
         r[10 + 2 * i] == CodePair(90, DateWhole(f.dates[i])) &&
         r[11 + 2 * i] == CodePair(90, DateReal(f.dates[i]))) &&
      r[10 + 2 * |f.dates|] == CodePair(292, Bool(f.selectRangeOfDates))
  {
    var h, d := HeadPairs(f), DatePairs(f.dates);
    var r := SunStudyPairs(f);
    assert r == (h + d) + (RangePairs(f) + [HourCountPair(f)] + HourPairs(f.hours) + TailPairs(f));
    forall i | 0 <= i < |f.dates|
      ensures r[10 + 2 * i] == CodePair(90, DateWhole(f.dates[i])) && r[11 + 2 * i] == CodePair(90, DateReal(f.dates[i]))
    {
      DatePairsAt(f.dates, i);
    }
  }

  /** When the range flag is set, the fields 93, 94, 95 follow it in that order. */
  lemma RangeFieldsFollowFlag(f: SunStudyFields)
    requires ListsFit(f) && f.selectRangeOfDates
    ensures var r := SunStudyPairs(f); var k := 10 + 2 * |f.dates|;
      r[k + 1] == CodePair(93, Int(f.startTimeSecondsPastMidnight)) &&
      r[k + 2] == CodePair(94, Int(f.endTimeSecondsPastMidnight)) &&
      r[k + 3] == CodePair(95, Int(f.intervalInSeconds))
  {
  }

  /** Each of the codes 93, 94 and 95 is written iff the range flag is set. */
  lemma RangeCodesIff(f: SunStudyFields)
    requires ListsFit(f)
    ensures var cs := Codes(SunStudyPairs(f));
      (93 in cs <==> f.selectRangeOfDates) &&
      (94 in cs <==> f.selectRangeOfDates) &&
      (95 in cs <==> f.selectRangeOfDates)
  {
    EmittedCodes(f);
    var cs := ExpectedCodes(|f.dates|, |f.hours|, f.selectRangeOfDates);
    var k := 11 + 2 * |f.dates|;
    if f.selectRangeOfDates {
      assert cs[k] == 93 && cs[k + 1] == 94 && cs[k + 2] == 95;
    } else {
      forall i | 0 <= i < |cs|
        ensures cs[i] != 93 && cs[i] != 94 && cs[i] != 95
      {
      }
    }
  }

  /**
   * The hour count follows the range block; then one code-290 pair per hour,
   * in list order, each the hour cast to a short.
   */
  lemma HourBlock(f: SunStudyFields)
    requires ListsFit(f)
    ensures var r := SunStudyPairs(f);
      var k := 11 + 2 * |f.dates| + (if f.selectRangeOfDates then 3 else 0);
      r[k] == CodePair(73, Short(ToShort(|f.hours| as int32))) &&
      forall j :: 0 <= j < |f.hours| ==> r[k + 1 + j] == CodePair(290, Short(ToShort(f.hours[j])))
  {
  }

  /** A count of fewer than 2^15 hours survives the cast to short unchanged. */
  lemma HourCountExact(f: SunStudyFields)
    requires ListsFit(f) && |f.hours| < 0x8000
    ensures HourCountPair(f).value == Short(|f.hours| as int16)
  {
  }

  /**
   * A freshly initialised object writes both counts as zero, no date or hour
   * element pairs and no range fields.
   */
  lemma InitialPairs()
    ensures var r := SunStudyPairs(InitialFields());
      Codes(r) == [100, 90, 1, 2, 70, 3, 290, 4, 291, 91, 292, 73,
                   340, 341, 342, 74, 75, 76, 77, 40, 293, 294, 343] &&
      r[9] == CodePair(91, Int(0)) && r[11] == CodePair(73, Short(0))
  {
  }

  /** Ten one-pair appends build the head block. */
  lemma AppendHead(start: seq<CodePair>, f: SunStudyFields)
    requires ListsFit(f)
    ensures start + [CodePair(100, Text("AcDbSunStudy"))] + [CodePair(90, Int(f.version))]
              + [CodePair(1, TextOf(f.sunSetupName))] + [CodePair(2, TextOf(f.description))]
              + [CodePair(70, Short(f.outputType))] + [CodePair(3, TextOf(f.sheetSetName))]
              + [CodePair(290, Bool(f.useSubset))] + [CodePair(4, TextOf(f.sheetSubsetName))]
              + [CodePair(291, Bool(f.selectDatesFromCalendar))] + [CodePair(91, Int(|f.dates| as int32))]
            == start + HeadPairs(f)
  {
  }

  /** Eleven one-pair appends build the tail block. */
  lemma AppendTail(start: seq<CodePair>, f: SunStudyFields)
    ensures start + [CodePair(340, Handle(f.pageSetupWizardPointer))] + [CodePair(341, Handle(f.viewPointer))]
              + [CodePair(342, Handle(f.visualStyleId))] + [CodePair(74, Short(f.shadePlotType))]
              + [CodePair(75, Short(ToShort(f.viewportsPerPage)))]
              + [CodePair(76, Short(ToShort(f.viewportDistributionRowCount)))]
              + [CodePair(77, Short(ToShort(f.viewportDistributionColumnCount)))]
              + [CodePair(40, Real(f.spacing))] + [CodePair(293, Bool(f.lockViewports))]
              + [CodePair(294, Bool(f.labelViewports))] + [CodePair(343, Handle(f.textStyleId))]
            == start + TailPairs(f)
  {
  }

  /** The blocks appended one after another make up the whole of SunStudyPairs. */
  lemma AppendBlocks(start: seq<CodePair>, f: SunStudyFields)
    requires ListsFit(f)
    ensures start + HeadPairs(f) + DatePairs(f.dates) + RangePairs(f) + [HourCountPair(f)]
              + HourPairs(f.hours) + TailPairs(f)
            == start + SunStudyPairs(f)
  {
  }

  class SunStudy {
    var version: int32
    var sunSetupName: Option<string>
    var description: Option<string>
    var outputType: int16
    var sheetSetName: Option<string>
    var useSubset: bool
    var sheetSubsetName: Option<string>
    var selectDatesFromCalendar: bool
    var dates: seq<DateTime>
    var selectRangeOfDates: bool
    var startTimeSecondsPastMidnight: int32
    var endTimeSecondsPastMidnight: int32
    var intervalInSeconds: int32
    var hours: seq<int32>
    var pageSetupWizardPointer: uint32
    var viewPointer: uint32
    var visualStyleId: uint32
    var shadePlotType: int16
    var viewportsPerPage: int32
    var viewportDistributionRowCount: int32
    var viewportDistributionColumnCount: int32
    var spacing: Double
    var lockViewports: bool
    var labelViewports: bool
    var textStyleId: uint32

    function Fields(): SunStudyFields
      reads this
    {
      SunStudyFields(version, sunSetupName, description, outputType, sheetSetName, useSubset,
                     sheetSubsetName, selectDatesFromCalendar, dates, selectRangeOfDates,
                     startTimeSecondsPastMidnight, endTimeSecondsPastMidnight, intervalInSeconds,
                     hours, pageSetupWizardPointer, viewPointer, visualStyleId, shadePlotType,
                     viewportsPerPage, viewportDistributionRowCount, viewportDistributionColumnCount,
                     spacing, lockViewports, labelViewports, textStyleId)
    }

    /**
     * Construction runs Initialize: numbers and pointers 0, flags false,
     * strings null, spacing 0.0, both lists empty.
     */
    constructor ()
      ensures version == 0 && sunSetupName == None && description == None && outputType == 0
      ensures sheetSetName == None && !useSubset && sheetSubsetName == None && !selectDatesFromCalendar
      ensures dates == [] && !selectRangeOfDates
      ensures startTimeSecondsPastMidnight == 0 && endTimeSecondsPastMidnight == 0 && intervalInSeconds == 0
      ensures hours == [] && pageSetupWizardPointer == 0 && viewPointer == 0 && visualStyleId == 0
      ensures shadePlotType == 0 && viewportsPerPage == 0 && viewportDistributionRowCount == 0
      ensures viewportDistributionColumnCount == 0 && spacing == ZeroDouble
      ensures !lockViewports && !labelViewports && textStyleId == 0
      ensures Fields() == InitialFields()
    {
      version := 0;
      sunSetupName := None;
      description := None;
      outputType := 0;
      sheetSetName := None;
      useSubset := false;
      sheetSubsetName := None;
      selectDatesFromCalendar := false;
      dates := [];
      selectRangeOfDates := false;
      startTimeSecondsPastMidnight := 0;
      endTimeSecondsPastMidnight := 0;
      intervalInSeconds := 0;
      hours := [];
      pageSetupWizardPointer := 0;
      viewPointer := 0;
      visualStyleId := 0;
      shadePlotType := 0;
      viewportsPerPage := 0;
      viewportDistributionRowCount := 0;
      viewportDistributionColumnCount := 0;
      spacing := ZeroDouble;
      lockViewports := false;
      labelViewports := false;
      textStyleId := 0;
    }

    /**
     * Append the base class's pairs (given as `basePairs`), then this
     * object's own, one pair at a time, to the list `pairs`; the extended
     * list is returned. The list only grows: what was in it is its prefix.
     */
    method AddValuePairs(pairs: seq<CodePair>, basePairs: seq<CodePair>) returns (list: seq<CodePair>)
      requires ListsFit(Fields())
      ensures list == pairs + basePairs + SunStudyPairs(Fields())
    {
      list := pairs + basePairs;
      var f := Fields();
      ghost var start := list;
      list := list + [CodePair(100, Text("AcDbSunStudy"))];
      list := list + [CodePair(90, Int(f.version))];
      list := list + [CodePair(1, TextOf(f.sunSetupName))];
      list := list + [CodePair(2, TextOf(f.description))];
      list := list + [CodePair(70, Short(f.outputType))];
      list := list + [CodePair(3, TextOf(f.sheetSetName))];
      list := list + [CodePair(290, Bool(f.useSubset))];
      list := list + [CodePair(4, TextOf(f.sheetSubsetName))];
      list := list + [CodePair(291, Bool(f.selectDatesFromCalendar))];
      list := list + [CodePair(91, Int(|f.dates| as int32))];
      AppendHead(start, f);
      ghost var beforeDates := list;
      var i := 0;
      while i < |f.dates|
        invariant 0 <= i <= |f.dates|
        invariant list == beforeDates + DatePairs(f.dates[..i])
      {
        assert f.dates[..i + 1][..i] == f.dates[..i];
        list := list + [CodePair(90, DateWhole(f.dates[i]))];
        list := list + [CodePair(90, DateReal(f.dates[i]))];
        i := i + 1;
      }
      assert f.dates[..i] == f.dates;
      ghost var afterDates := list;
      list := list + [CodePair(292, Bool(f.selectRangeOfDates))];
      if f.selectRangeOfDates {
        list := list + [CodePair(93, Int(f.startTimeSecondsPastMidnight))];
      }
      if f.selectRangeOfDates {
        list := list + [CodePair(94, Int(f.endTimeSecondsPastMidnight))];
      }
      if f.selectRangeOfDates {
        list := list + [CodePair(95, Int(f.intervalInSeconds))];
      }
      assert list == afterDates + RangePairs(f);
      list := list + [HourCountPair(f)];
      list := list + HourPairs(f.hours);
      ghost var afterHours := list;
      list := list + [CodePair(340, Handle(f.pageSetupWizardPointer))];
      list := list + [CodePair(341, Handle(f.viewPointer))];
      list := list + [CodePair(342, Handle(f.visualStyleId))];
      list := list + [CodePair(74, Short(f.shadePlotType))];
      list := list + [CodePair(75, Short(ToShort(f.viewportsPerPage)))];
      list := list + [CodePair(76, Short(ToShort(f.viewportDistributionRowCount)))];
      list := list + [CodePair(77, Short(ToShort(f.viewportDistributionColumnCount)))];
      list := list + [CodePair(40, Real(f.spacing))];
      list := list + [CodePair(293, Bool(f.lockViewports))];
      list := list + [CodePair(294, Bool(f.labelViewports))];
      list := list + [CodePair(343, Handle(f.textStyleId))];
      AppendTail(afterHours, f);
      AppendBlocks(start, f);
    }
  }
}
