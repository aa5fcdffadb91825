/**
 * `createPresentation` and `addChartsToSlide`: how each slide of the
 * generated structure is laid out in the deck.
 *
 * The slide-deck library is outside the model. A `Deck` records, per deck
 * slide and in order, the calls made on it (`addText`, `addNotes`,
 * `addChart`) as render commands; the fixed geometry, colours and master
 * slide of those calls are not part of the commands. Writing the deck to a
 * blob is done by the caller through an oracle.
 */
module PresentationService {
  import opened JsRuntime
  import opened Types

  /** The library's chart types used here. */
  datatype ChartType = Bar | Pie | Line

  datatype Align = Left | Center
  datatype VAlign = Top | Middle

  /** A chart series in the library's format. */
  datatype ChartSeries = ChartSeries(name: string, labels: seq<string>, values: seq<real>)

  /** The chart options that depend on the chart. */
  datatype ChartOptions = ChartOptions(title: Option<string>, showPercent: bool)

  /** One paragraph of a text box. */
  datatype TextRun = TextRun(text: string, bullet: bool)

  /** One call on a deck slide. */
  datatype Command =
    | TitleText(text: string, fontSize: nat, align: Align, valign: VAlign)
    | BulletText(runs: seq<TextRun>)
    | SpeakerNotes(notes: string)
    | AddChart(chartType: ChartType, data: seq<ChartSeries>, options: ChartOptions)

  const TitleSlideFontSize := 44
  const TitleFontSize := 32

  /** The `switch` on the chart type: 'pie' and 'line' are recognised, anything else (or nothing) is a bar chart. */
  function ToChartType(kind: Option<string>): (t: ChartType)
    ensures t == Pie <==> kind == Some("pie")
    ensures t == Line <==> kind == Some("line")
    ensures t == Bar <==> kind != Some("pie") && kind != Some("line")
  {
    if kind == Some("bar") then Bar
    else if kind == Some("pie") then Pie
    else if kind == Some("line") then Line
    else Bar
  }

  /** The `map` of the chart's series to the library's format: same count, same order, same fields. */
  function ProjectSeries(data: seq<Series>): (r: seq<ChartSeries>)
    ensures |r| == |data|
    ensures forall i :: 0 <= i < |data| ==>
      r[i].name == data[i].name && r[i].labels == data[i].labels && r[i].values == data[i].values
  {
    seq(|data|, i requires 0 <= i < |data| => ChartSeries(data[i].name, data[i].labels, data[i].values))
  }

  /** The commands `addChartsToSlide` issues for a chart: none when it has no data. */
  function ChartCommands(chart: ChartData): (r: seq<Command>)
    ensures |r| == if chart.data.Some? then 1 else 0
    ensures forall c :: c in r ==>
      && c.AddChart?
      && c.data == ProjectSeries(chart.data.value)
      && c.options.title == chart.title
      && (c.options.showPercent <==> c.chartType == Pie)
      && (c.chartType == Pie <==> chart.kind == Some("pie"))
  {
    match chart.data
    case None => []
    case Some(series) =>
      var chartType := ToChartType(chart.kind);
      [AddChart(chartType, ProjectSeries(series), ChartOptions(chart.title, chartType == Pie))]
  }

  /** The title of slide `index`: large and centred on the first slide, smaller and top-left elsewhere. */
  function TitleCommand(title: string, index: nat): (c: Command)
    ensures c.TitleText? && c.text == title
    ensures c.fontSize == if index == 0 then TitleSlideFontSize else TitleFontSize
    ensures c.align == Center <==> index == 0
    ensures c.valign == Middle <==> index == 0
  {
    if index == 0 then TitleText(title, TitleSlideFontSize, Center, Middle)
    else TitleText(title, TitleFontSize, Left, Top)
  }

  /** Speaker notes are added only when present and non-empty (a truthy string). */
  function NotesCommands(notes: Option<string>): (r: seq<Command>)
    ensures |r| <= 1
    ensures r != [] <==> notes.Some? && notes.value != ""
    ensures r != [] ==> r[0] == SpeakerNotes(notes.value)
  {
    match notes
    case Some(text) => if text != "" then [SpeakerNotes(text)] else []
    case None => []
  }

  /** One bulleted paragraph per content string. */
  function Bullets(content: seq<string>): (r: seq<TextRun>)
    ensures |r| == |content|
    ensures forall i :: 0 <= i < |r| ==> r[i].text == content[i] && r[i].bullet
  {
    seq(|content|, i requires 0 <= i < |content| => TextRun(content[i], true))
  }

  /** The commands for one slide: its title, its notes, then its chart or else its bullets. */
  function SlideCommands(s: Slide, index: nat): seq<Command>
  {
    [TitleCommand(s.title, index)] + NotesCommands(s.speakerNotes)
    + (if s.chart.Some? then ChartCommands(s.chart.value) else [BulletText(Bullets(s.content))])
  }

  /** The deck for a slide list: one deck slide per slide, in order. */
  function Layout(slides: seq<Slide>): (deck: seq<seq<Command>>)
    ensures |deck| == |slides|
    ensures forall i :: 0 <= i < |slides| ==> deck[i] == SlideCommands(slides[i], i)
  {
    seq(|slides|, i requires 0 <= i < |slides| => SlideCommands(slides[i], i))
  }

  predicate HasBullets(cmds: seq<Command>)
  {
    exists k :: 0 <= k < |cmds| && cmds[k].BulletText?
  }

  predicate HasChart(cmds: seq<Command>)
  {
    exists k :: 0 <= k < |cmds| && cmds[k].AddChart?
  }

  predicate HasNotes(cmds: seq<Command>)
  {
    exists k :: 0 <= k < |cmds| && cmds[k].SpeakerNotes?
  }

  /**
   * What a laid-out slide holds: the title first and only once; bullets
   * exactly when the slide has no chart; a chart exactly when it has one
   * with data; notes exactly when they are present and non-empty.
   */
  lemma {:induction false} SlideContents(s: Slide, index: nat)
    ensures SlideCommands(s, index)[0] == TitleCommand(s.title, index)
    ensures forall k :: 1 <= k < |SlideCommands(s, index)| ==> !SlideCommands(s, index)[k].TitleText?
    ensures HasBullets(SlideCommands(s, index)) <==> s.chart.None?
    ensures HasChart(SlideCommands(s, index)) <==> s.chart.Some? && s.chart.value.data.Some?
    ensures HasNotes(SlideCommands(s, index)) <==> s.speakerNotes.Some? && s.speakerNotes.value != ""
  {
    var notes := NotesCommands(s.speakerNotes);
    var tail := if s.chart.Some? then ChartCommands(s.chart.value) else [BulletText(Bullets(s.content))];
    var cmds := SlideCommands(s, index);
    assert cmds == [TitleCommand(s.title, index)] + notes + tail;
    assert forall k :: 1 <= k < 1 + |notes| ==> cmds[k] == notes[k - 1];
    assert forall k :: 1 + |notes| <= k < |cmds| ==> cmds[k] == tail[k - 1 - |notes|];
    assert forall k :: 0 <= k < |tail| ==> tail[k] in tail;
    if s.chart.None? {
      assert cmds[1 + |notes|].BulletText?;
    } else if s.chart.value.data.Some? {
      assert tail[0] in tail;
      assert cmds[1 + |notes|].AddChart?;
    }
    if notes != [] {
      assert cmds[1].SpeakerNotes?;
    }
  }

  /** Every deck slide of a layout has the contents `SlideContents` describes, for its own slide and position. */
  lemma LayoutContents(slides: seq<Slide>, i: nat)
    requires i < |slides|
    ensures Layout(slides)[i][0].fontSize == (if i == 0 then TitleSlideFontSize else TitleFontSize)
    ensures Layout(slides)[i][0].text == slides[i].title
    ensures HasBullets(Layout(slides)[i]) <==> slides[i].chart.None?
    ensures HasChart(Layout(slides)[i]) <==> slides[i].chart.Some? && slides[i].chart.value.data.Some?
    ensures HasNotes(Layout(slides)[i]) <==> slides[i].speakerNotes.Some? && slides[i].speakerNotes.value != ""
  {
    SlideContents(slides[i], i);
  }

  /** A deck under construction: the commands issued on each of its slides, in order. */
  class Deck {
    var slides: seq<seq<Command>>

    constructor ()
      ensures slides == []
    {
      slides := [];
    }

    /** `pres.addSlide()`: a new, empty, current slide. */
    method AddSlide()
      modifies this
      ensures slides == old(slides) + [[]]
    {
      slides := slides + [[]];
    }

    /** A call on the current (last added) slide. */
    method Add(c: Command)
      requires slides != []
      modifies this
      ensures slides == old(slides)[..|old(slides)| - 1] + [old(slides)[|old(slides)| - 1] + [c]]
    {
      slides := slides[..|slides| - 1] + [slides[|slides| - 1] + [c]];
    }
  }

  /** `addChartsToSlide`: add the chart to the current slide, unless it has no data. */
  method AddChartsToSlide(deck: Deck, chart: ChartData)
    requires deck.slides != []
    modifies deck
    ensures deck.slides == old(deck.slides)[..|old(deck.slides)| - 1]
                           + [old(deck.slides)[|old(deck.slides)| - 1] + ChartCommands(chart)]
  {
    if chart.data.None? {
      assert deck.slides[|deck.slides| - 1] + ChartCommands(chart) == deck.slides[|deck.slides| - 1];
      assert deck.slides == deck.slides[..|deck.slides| - 1] + [deck.slides[|deck.slides| - 1]];
      return;
    }
    var data := ProjectSeries(chart.data.value);
    var chartType := Bar;
    var showPercent := false;
    if chart.kind == Some("bar") {
      chartType := Bar;
    } else if chart.kind == Some("pie") {
      chartType := Pie;
      showPercent := true;
    } else if chart.kind == Some("line") {
      chartType := Line;
    } else {
      chartType := Bar;
    }
    deck.Add(AddChart(chartType, data, ChartOptions(chart.title, showPercent)));
  }

  /** The body of the `forEach`: one new deck slide laid out for `slideData`, the slide at `index`. */
  method AddSlideFor(deck: Deck, slideData: Slide, index: nat)
    modifies deck
    ensures deck.slides == old(deck.slides) + [SlideCommands(slideData, index)]
  {
    deck.AddSlide();
    assert deck.slides[..|deck.slides| - 1] == old(deck.slides) && deck.slides[|deck.slides| - 1] == [];
    var fontSize := if index == 0 then TitleSlideFontSize else TitleFontSize;
    var align := if index == 0 then Center else Left;
    var valign := if index == 0 then Middle else Top;
    deck.Add(TitleText(slideData.title, fontSize, align, valign));
    assert TitleText(slideData.title, fontSize, align, valign) == TitleCommand(slideData.title, index);
    assert [] + [TitleCommand(slideData.title, index)] == [TitleCommand(slideData.title, index)];
    assert deck.slides == old(deck.slides) + [[TitleCommand(slideData.title, index)]];
    if slideData.speakerNotes.Some? && slideData.speakerNotes.value != "" {
      deck.Add(SpeakerNotes(slideData.speakerNotes.value));
      assert deck.slides[..|deck.slides| - 1] == old(deck.slides);
    }
    ghost var body := [TitleCommand(slideData.title, index)] + NotesCommands(slideData.speakerNotes);
    assert NotesCommands(slideData.speakerNotes) == [] ==> body == [TitleCommand(slideData.title, index)];
    assert deck.slides == old(deck.slides) + [body];
    if slideData.chart.Some? {
      AddChartsToSlide(deck, slideData.chart.value);
      assert deck.slides == old(deck.slides) + [body + ChartCommands(slideData.chart.value)];
    } else {
      deck.Add(BulletText(Bullets(slideData.content)));
      assert deck.slides == old(deck.slides) + [body + [BulletText(Bullets(slideData.content))]];
    }
  }

  lemma LayoutPrefix(slides: seq<Slide>, k: nat)
    requires k < |slides|
    ensures Layout(slides[..k + 1]) == Layout(slides[..k]) + [SlideCommands(slides[k], k)]
  {
  }

  /** The `forEach` of `createPresentation`: a new deck holding one laid-out deck slide per slide, in order. */
  method LayOutSlides(slides: seq<Slide>) returns (deck: Deck)
    ensures fresh(deck)
    ensures deck.slides == Layout(slides)
  {
    deck := new Deck();
    for index := 0 to |slides|
      invariant deck.slides == Layout(slides[..index])
    {
      AddSlideFor(deck, slides[index], index);
      LayoutPrefix(slides, index);
    }
    assert slides[..|slides|] == slides;
  }

  /**
   * The slide-deck library as seen from here: whether loading its scripts
   * failed, and how it writes a finished deck to a blob.
   */
  datatype Renderer = Renderer(scripts: Option<Thrown>, write: seq<seq<Command>> -> Result<Blob, Thrown>)

  /** What `createPresentation` resolves to: the written layout, unless the scripts failed to load. */
  function Render(slides: seq<Slide>, r: Renderer): Result<Blob, Thrown>
  {
    match r.scripts
    case Some(e) => Err(e)
    case None => r.write(Layout(slides))
  }

  /** `createPresentation`: load the library, lay out every slide, write the deck. */
  method CreatePresentation(slides: seq<Slide>, r: Renderer) returns (blob: Result<Blob, Thrown>)
    ensures blob == Render(slides, r)
  {
    if r.scripts.Some? {
      return Err(r.scripts.value);
    }
    var deck := LayOutSlides(slides);
    blob := r.write(deck.slides);
  }
}
