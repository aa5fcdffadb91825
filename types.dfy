/**
 * The data model shared by the services: slides, charts and the parsed
 * spreadsheet data, and the response schema the generation service asks the
 * model to follow.
 *
 * The TypeScript interfaces promise that a chart always has a `type` among
 * 'bar', 'pie' and 'line', a `data` array and a `title`, but the schema sent
 * to the model makes every chart field optional and `type` any string. The
 * slides the application receives are what the model produced under that
 * schema, so the datatypes below follow the schema: the chart fields are
 * optional and the chart kind is a free string.
 */
module Types {
  import opened JsRuntime

  /** A JSON value, as `JSON.parse` produces it. Numbers are idealised as reals. */
  datatype Json =
    | JNull
    | JBool(b: bool)
    | JNumber(n: real)
    | JString(s: string)
    | JArray(items: seq<Json>)
    | JObject(fields: map<string, Json>)

  /** One spreadsheet row as `sheet_to_json` returns it: column header to cell value. */
  type Row = map<string, Json>

  /** `ParsedXlsxData`: a sheet key (`"<file> - <sheet>"`) to that sheet's rows. */
  type SheetData = map<string, seq<Row>>

  /** One data series of a chart. */
  datatype Series = Series(name: string, labels: seq<string>, values: seq<real>)

  /** `ChartData`, with the optionality the response schema gives its fields. */
  datatype ChartData = ChartData(kind: Option<string>, data: Option<seq<Series>>, title: Option<string>)

  /** `Slide`: a title and bullet points, optional speaker notes, an optional chart. */
  datatype Slide = Slide(title: string, content: seq<string>, speakerNotes: Option<string>, chart: Option<ChartData>)

  // ---------------------------------------------------------------------
  // The response schema

  /** The fragment of the model service's schema language the application uses. */
  datatype Schema =
    | StringSchema
    | NumberSchema
    | ArraySchema(items: Schema)
    | ObjectSchema(properties: map<string, Schema>, required: seq<string>)

  const SeriesSchema: Schema :=
    ObjectSchema(
      map["name" := StringSchema, "labels" := ArraySchema(StringSchema), "values" := ArraySchema(NumberSchema)],
      ["name", "labels", "values"])

  /** The chart object: no field is required. */
  const ChartSchema: Schema :=
    ObjectSchema(
      map["type" := StringSchema, "title" := StringSchema, "data" := ArraySchema(SeriesSchema)],
      [])

  const SlideSchema: Schema :=
    ObjectSchema(
      map["title" := StringSchema, "content" := ArraySchema(StringSchema),
          "speakerNotes" := StringSchema, "chart" := ChartSchema],
      ["title", "content"])

  const PresentationSchema: Schema := ArraySchema(SlideSchema)

  /**
   * `j` follows `schema`: it has the right shape, every required property is
   * present and every present property that the schema describes follows its
   * description.
   */
  predicate Conforms(j: Json, schema: Schema)
    decreases j
  {
    match schema
    case StringSchema => j.JString?
    case NumberSchema => j.JNumber?
    case ArraySchema(itemSchema) =>
      j.JArray? && forall i :: 0 <= i < |j.items| ==> Conforms(j.items[i], itemSchema)
    case ObjectSchema(properties, required) =>
      && j.JObject?
      && (forall k :: k in required ==> k in j.fields)
      && (forall k :: k in j.fields && k in properties ==> Conforms(j.fields[k], properties[k]))
  }

  // ---------------------------------------------------------------------
  // Slides as JSON: the shape the model returns and the application casts

  function EncodeStrings(xs: seq<string>): Json
  {
    JArray(seq(|xs|, i requires 0 <= i < |xs| => JString(xs[i])))
  }

  function EncodeNumbers(xs: seq<real>): Json
  {
    JArray(seq(|xs|, i requires 0 <= i < |xs| => JNumber(xs[i])))
  }

  function EncodeSeries(s: Series): Json
  {
    JObject(map["name" := JString(s.name), "labels" := EncodeStrings(s.labels), "values" := EncodeNumbers(s.values)])
  }

  /** `fields` with `key` set to the encoding of `v` when `v` is present, and without `key` otherwise. */
  function WithOptional(fields: map<string, Json>, key: string, v: Option<Json>): map<string, Json>
  {
    match v
    case None => fields - {key}
    case Some(x) => fields[key := x]
  }

  function EncodeChart(c: ChartData): Json
  {
    var data := match c.data
      case None => None
      case Some(series) => Some(JArray(seq(|series|, i requires 0 <= i < |series| => EncodeSeries(series[i]))));
    var kind := match c.kind case None => None case Some(k) => Some(JString(k));
    var title := match c.title case None => None case Some(t) => Some(JString(t));
    JObject(WithOptional(WithOptional(WithOptional(map[], "type", kind), "title", title), "data", data))
  }

  function EncodeSlide(s: Slide): Json
  {
    var notes := match s.speakerNotes case None => None case Some(n) => Some(JString(n));
    var chart := match s.chart case None => None case Some(c) => Some(EncodeChart(c));
    JObject(WithOptional(WithOptional(
      map["title" := JString(s.title), "content" := EncodeStrings(s.content)],
      "speakerNotes", notes), "chart", chart))
  }

  function EncodePresentation(slides: seq<Slide>): Json
  {
    JArray(seq(|slides|, i requires 0 <= i < |slides| => EncodeSlide(slides[i])))
  }

  function DecodeStrings(j: Json): Option<seq<string>>
  {
    if j.JArray? && forall i :: 0 <= i < |j.items| ==> j.items[i].JString?
    then Some(seq(|j.items|, i requires 0 <= i < |j.items| => j.items[i].s))
    else None
  }

  function DecodeNumbers(j: Json): Option<seq<real>>
  {
    if j.JArray? && forall i :: 0 <= i < |j.items| ==> j.items[i].JNumber?
    then Some(seq(|j.items|, i requires 0 <= i < |j.items| => j.items[i].n))
    else None
  }

  /** An optional string property: absent is fine, present must be a string. */
  function DecodeOptionalString(fields: map<string, Json>, key: string): Option<Option<string>>
  {
    if key !in fields then Some(None)
    else if fields[key].JString? then Some(Some(fields[key].s))
    else None
  }

  function DecodeSeries(j: Json): Option<Series>
  {
    if !j.JObject? || "name" !in j.fields || "labels" !in j.fields || "values" !in j.fields then None
    else
      var name, labels, values := j.fields["name"], DecodeStrings(j.fields["labels"]), DecodeNumbers(j.fields["values"]);
      if name.JString? && labels.Some? && values.Some? then Some(Series(name.s, labels.value, values.value)) else None
  }

  function DecodeSeriesArray(j: Json): Option<seq<Series>>
  {
    if j.JArray? && forall i :: 0 <= i < |j.items| ==> DecodeSeries(j.items[i]).Some?
    then Some(seq(|j.items|, i requires 0 <= i < |j.items| => DecodeSeries(j.items[i]).value))
    else None
  }

  function DecodeChart(j: Json): Option<ChartData>
  {
    if !j.JObject? then None
    else
      var kind, title := DecodeOptionalString(j.fields, "type"), DecodeOptionalString(j.fields, "title");
      var data := if "data" !in j.fields then Some(None)
        else match DecodeSeriesArray(j.fields["data"]) case None => None case Some(d) => Some(Some(d));
      if kind.Some? && title.Some? && data.Some? then Some(ChartData(kind.value, data.value, title.value)) else None
  }

  function DecodeSlide(j: Json): Option<Slide>
  {
    if !j.JObject? || "title" !in j.fields || "content" !in j.fields then None
    else
      var title, content := j.fields["title"], DecodeStrings(j.fields["content"]);
      var notes := DecodeOptionalString(j.fields, "speakerNotes");
      var chart := if "chart" !in j.fields then Some(None)
        else match DecodeChart(j.fields["chart"]) case None => None case Some(c) => Some(Some(c));
      if title.JString? && content.Some? && notes.Some? && chart.Some?
      then Some(Slide(title.s, content.value, notes.value, chart.value))
      else None
  }

  /** The `Slide[]` that a JSON array of slide objects stands for. */
  function DecodePresentation(j: Json): Option<seq<Slide>>
  {
    if j.JArray? && forall i :: 0 <= i < |j.items| ==> DecodeSlide(j.items[i]).Some?
    then Some(seq(|j.items|, i requires 0 <= i < |j.items| => DecodeSlide(j.items[i]).value))
    else None
  }

  // ---------------------------------------------------------------------
  // What the schema guarantees

  /** A slide object has a title and content; notes and chart may be missing. */
  lemma SlideSchemaRequires(j: Json)
    requires Conforms(j, SlideSchema)
    ensures j.JObject? && "title" in j.fields && "content" in j.fields
    ensures j.fields["title"].JString? && Conforms(j.fields["content"], ArraySchema(StringSchema))
    ensures Conforms(JObject(map["title" := j.fields["title"], "content" := j.fields["content"]]), SlideSchema)
  {
  }

  /** A chart series object has a name, labels and values. */
  lemma SeriesSchemaRequires(j: Json)
    requires Conforms(j, SeriesSchema)
    ensures j.JObject? && "name" in j.fields && "labels" in j.fields && "values" in j.fields
  {
  }

  lemma StringsDecodeIffConform(j: Json)
    ensures DecodeStrings(j).Some? <==> Conforms(j, ArraySchema(StringSchema))
  {
  }

  lemma NumbersDecodeIffConform(j: Json)
    ensures DecodeNumbers(j).Some? <==> Conforms(j, ArraySchema(NumberSchema))
  {
  }

  lemma SeriesDecodesIffConforms(j: Json)
    ensures DecodeSeries(j).Some? <==> Conforms(j, SeriesSchema)
  {
    if j.JObject? && "name" in j.fields && "labels" in j.fields && "values" in j.fields {
      StringsDecodeIffConform(j.fields["labels"]);
      NumbersDecodeIffConform(j.fields["values"]);
      if Conforms(j, SeriesSchema) {
        assert Conforms(j.fields["name"], SeriesSchema.properties["name"]);
        assert Conforms(j.fields["labels"], SeriesSchema.properties["labels"]);
        assert Conforms(j.fields["values"], SeriesSchema.properties["values"]);
      }
    }
  }

  lemma ChartDecodesIffConforms(j: Json)
    ensures DecodeChart(j).Some? <==> Conforms(j, ChartSchema)
  {
    if j.JObject? && "data" in j.fields {
      var d := j.fields["data"];
      if d.JArray? {
        forall i | 0 <= i < |d.items| ensures DecodeSeries(d.items[i]).Some? <==> Conforms(d.items[i], SeriesSchema) {
          SeriesDecodesIffConforms(d.items[i]);
        }
      }
    }
  }

  /** The cast to `Slide` recovers a slide exactly from the objects that follow the slide schema. */
  lemma SlideDecodesIffConforms(j: Json)
    ensures DecodeSlide(j).Some? <==> Conforms(j, SlideSchema)
  {
    if j.JObject? {
      if "chart" in j.fields {
        ChartDecodesIffConforms(j.fields["chart"]);
      }
      if "content" in j.fields {
        StringsDecodeIffConform(j.fields["content"]);
      }
      if Conforms(j, SlideSchema) {
        forall k | k in j.fields && k in SlideSchema.properties
          ensures Conforms(j.fields[k], SlideSchema.properties[k])
        {
        }
      }
    }
  }

  /** A JSON value is a well-formed presentation exactly when it follows the presentation schema. */
  lemma PresentationDecodesIffConforms(j: Json)
    ensures DecodePresentation(j).Some? <==> Conforms(j, PresentationSchema)
  {
    if j.JArray? {
      forall i | 0 <= i < |j.items| ensures DecodeSlide(j.items[i]).Some? <==> Conforms(j.items[i], SlideSchema) {
        SlideDecodesIffConforms(j.items[i]);
      }
    }
  }

  lemma StringsRoundTrip(xs: seq<string>)
    ensures Conforms(EncodeStrings(xs), ArraySchema(StringSchema))
    ensures DecodeStrings(EncodeStrings(xs)) == Some(xs)
  {
    var j := EncodeStrings(xs);
    assert forall i :: 0 <= i < |j.items| ==> j.items[i] == JString(xs[i]);
    assert DecodeStrings(j).Some?;
    assert DecodeStrings(j).value == xs;
    StringsDecodeIffConform(j);
  }

  lemma NumbersRoundTrip(xs: seq<real>)
    ensures Conforms(EncodeNumbers(xs), ArraySchema(NumberSchema))
    ensures DecodeNumbers(EncodeNumbers(xs)) == Some(xs)
  {
    var j := EncodeNumbers(xs);
    assert forall i :: 0 <= i < |j.items| ==> j.items[i] == JNumber(xs[i]);
    assert DecodeNumbers(j).Some?;
    assert DecodeNumbers(j).value == xs;
    NumbersDecodeIffConform(j);
  }

  lemma SeriesRoundTrip(s: Series)
    ensures Conforms(EncodeSeries(s), SeriesSchema)
    ensures DecodeSeries(EncodeSeries(s)) == Some(s)
  {
    StringsRoundTrip(s.labels);
    NumbersRoundTrip(s.values);
    assert DecodeSeries(EncodeSeries(s)) == Some(s);
    SeriesDecodesIffConforms(EncodeSeries(s));
  }

  lemma ChartRoundTrip(c: ChartData)
    ensures Conforms(EncodeChart(c), ChartSchema)
    ensures DecodeChart(EncodeChart(c)) == Some(c)
  {
    var j := EncodeChart(c);
    match c.data {
      case None =>
        assert "data" !in j.fields;
      case Some(series) =>
        var d := JArray(seq(|series|, i requires 0 <= i < |series| => EncodeSeries(series[i])));
        assert j.fields["data"] == d;
        forall i | 0 <= i < |series| ensures DecodeSeries(d.items[i]) == Some(series[i]) {
          SeriesRoundTrip(series[i]);
        }
        assert DecodeSeriesArray(d).Some?;
        assert DecodeSeriesArray(d).value == series;
    }
    assert DecodeChart(j) == Some(c);
    ChartDecodesIffConforms(j);
  }

  /** Every slide, written as JSON, follows the slide schema and reads back as itself. */
  lemma SlideRoundTrip(s: Slide)
    ensures Conforms(EncodeSlide(s), SlideSchema)
    ensures DecodeSlide(EncodeSlide(s)) == Some(s)
  {
    var j := EncodeSlide(s);
    StringsRoundTrip(s.content);
    if s.chart.Some? {
      ChartRoundTrip(s.chart.value);
      assert j.fields["chart"] == EncodeChart(s.chart.value);
    } else {
      assert "chart" !in j.fields;
    }
    if s.speakerNotes.None? {
      assert "speakerNotes" !in j.fields;
    }
    assert DecodeSlide(j) == Some(s);
    SlideDecodesIffConforms(j);
  }

  /** Every slide list, written as JSON, follows the presentation schema and reads back as itself. */
  lemma PresentationRoundTrip(slides: seq<Slide>)
    ensures Conforms(EncodePresentation(slides), PresentationSchema)
    ensures DecodePresentation(EncodePresentation(slides)) == Some(slides)
  {
    var j := EncodePresentation(slides);
    forall i | 0 <= i < |slides| ensures DecodeSlide(j.items[i]) == Some(slides[i]) {
      SlideRoundTrip(slides[i]);
    }
    assert DecodePresentation(j).Some?;
    assert DecodePresentation(j).value == slides;
    PresentationDecodesIffConforms(j);
  }
}
