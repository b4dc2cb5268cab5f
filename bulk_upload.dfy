/**
 * The admin bulk upload (pages/Admin/BlukQuestionUpload.tsx): the JSON file
 * an administrator picks is parsed, the batch under key "0" has its video
 * segments numbered 1, 3, 5, ... and its questions 2, 4, 6, ..., so that
 * question i directly follows segment i in the section, and the result goes
 * to the upload service together with the selected section id.
 *
 * Parsed JSON is a `Json` value; looking up a property follows JavaScript's
 * rules for the values JSON can produce (a property of `null` throws, arrays
 * and strings answer canonical index keys, numbers and booleans answer
 * nothing), and so does the object spread `{...item}`.
 */
module BulkUpload {
  import opened Wrappers

  datatype Json =
    | JNull
    | JBool(b: bool)
    | JNum(n: real)
    | JStr(s: string)
    | JArr(items: seq<Json>)
    | JObj(fields: map<string, Json>)

  /** JavaScript truthiness of a JSON value (JSON has no NaN). */
  function Truthy(v: Json): (truthy: bool)
    ensures v.JNull? ==> !truthy
    ensures v.JArr? || v.JObj? ==> truthy
    ensures v.JStr? ==> (truthy <==> v.s != "")
  {
    match v
    case JNull => false
    case JBool(b) => b
    case JNum(n) => n != 0.0
    case JStr(s) => s != ""
    case _ => true
  }

  // ---------------------------------------------------------------------
  // Index keys: the property names of array elements and string characters

  predicate IsDigit(c: char) {
    '0' <= c <= '9'
  }

  predicate AllDigits(s: string) {
    forall i :: 0 <= i < |s| ==> IsDigit(s[i])
  }

  /** The value of a string of decimal digits. */
  function ParseDecimal(s: string): (n: nat)
    requires AllDigits(s)
    decreases |s|
  {
    if s == [] then 0
    else ParseDecimal(s[..|s| - 1]) * 10 + (s[|s| - 1] as int - '0' as int)
  }

  /** The canonical decimal spelling of a natural number, as `String(n)`:
      no leading zero, and it reads back as `n`. */
  function Decimal(n: nat): (s: string)
    ensures |s| >= 1 && AllDigits(s)
    ensures s[0] != '0' || s == "0"
    ensures ParseDecimal(s) == n
    decreases n
  {
    var last := (('0' as int) + n % 10) as char;
    if n < 10 then [last]
    else
      var front := Decimal(n / 10);
      var s := front + [last];
      assert s[..|s| - 1] == front;
      s
  }

  /** A property name that designates an array element: the canonical
      decimal spelling of an index. */
  predicate IsIndexKey(key: string) {
    |key| >= 1 && AllDigits(key) && (key[0] != '0' || key == "0")
  }

  /** Distinct indices have distinct keys, since each key reads back as its index. */
  lemma DecimalInjective(i: nat, j: nat)
    requires Decimal(i) == Decimal(j)
    ensures i == j
  {
    assert ParseDecimal(Decimal(i)) == i;
  }

  // ---------------------------------------------------------------------
  // Property access and spread

  datatype Lookup = TypeError | Missing | Found(value: Json)

  /** `v[key]` on a parsed JSON value. */
  function Get(v: Json, key: string): (r: Lookup)
    ensures r.TypeError? <==> v.JNull?
    ensures v.JObj? ==> (r.Found? <==> key in v.fields)
    ensures v.JObj? && key in v.fields ==> r == Found(v.fields[key])
    ensures v.JArr? && r.Found? ==> r.value in v.items
    ensures (v.JBool? || v.JNum?) ==> r.Missing?
  {
    match v
    case JNull => TypeError
    case JObj(m) => if key in m then Found(m[key]) else Missing
    case JArr(a) =>
      if IsIndexKey(key) && ParseDecimal(key) < |a| then Found(a[ParseDecimal(key)]) else Missing
    case JStr(s) =>
      if IsIndexKey(key) && ParseDecimal(key) < |s| then Found(JStr([s[ParseDecimal(key)]])) else Missing
    case _ => Missing
  }

  /** The own enumerable properties that `{...v}` copies: an object's
      fields, an array's elements or a string's characters under their index
      keys, and nothing for `null`, booleans and numbers. */
  function Spread(v: Json): (m: map<string, Json>)
    ensures v.JObj? ==> m == v.fields
    ensures v.JArr? ==> forall i :: 0 <= i < |v.items| ==> Decimal(i) in m && m[Decimal(i)] == v.items[i]
    ensures (v.JNull? || v.JBool? || v.JNum?) ==> m == map[]
  {
    match v
    case JObj(fields) => fields
    case JArr(a) => IndexMap(a)
    case JStr(s) => IndexMap(seq(|s|, i requires 0 <= i < |s| => JStr([s[i]])))
    case _ => map[]
  }

  /** The elements of a list under their index keys. */
  function IndexMap(a: seq<Json>): (m: map<string, Json>)
    ensures forall i :: 0 <= i < |a| ==> Decimal(i) in m && m[Decimal(i)] == a[i]
    ensures forall k :: k in m ==> IsIndexKey(k) && ParseDecimal(k) < |a|
  {
    var m := map i | 0 <= i < |a| :: Decimal(i) := a[i];
    forall k | k in m ensures IsIndexKey(k) && ParseDecimal(k) < |a| {
      var i :| 0 <= i < |a| && Decimal(i) == k;
    }
    m
  }

  // ---------------------------------------------------------------------
  // The transformation

  /** `{...item, sequence: n}`: the item's properties with `sequence` set
      (added or overwritten) to `n`. */
  function Stamp(item: Json, n: int): (r: Json)
    ensures r.JObj? && "sequence" in r.fields && r.fields["sequence"] == JNum(n as real)
    ensures forall k :: k != "sequence" ==> (k in r.fields <==> k in Spread(item))
    ensures forall k :: k != "sequence" && k in Spread(item) ==> r.fields[k] == Spread(item)[k]
  {
    JObj(Spread(item)["sequence" := JNum(n as real)])
  }

  /** `items.map((item, index) => ({...item, sequence: 2 * index + offset}))`. */
  function Renumber(items: seq<Json>, offset: int): (r: seq<Json>)
    ensures |r| == |items|
    ensures forall i :: 0 <= i < |items| ==> r[i] == Stamp(items[i], 2 * i + offset)
  {
    seq(|items|, i requires 0 <= i < |items| => Stamp(items[i], 2 * i + offset))
  }

  /** The numbered batch that goes under key "0". */
  datatype Batch = Batch(segments: seq<Json>, questions: seq<Json>)

  /** `{ sectionId, data }` as sent to the upload service. */
  datatype Upload = Upload(sectionId: string, data: map<string, Batch>)

  /** The transformation either builds the payload or throws. */
  datatype Outcome = Threw | Built(upload: Upload)

  /** The list under `key`, where `.map` is called on it: anything but an
      array (a missing property, an object, a string) has no `map` and throws. */
  function ListAt(item: Json, key: string): (r: Option<seq<Json>>)
    ensures r.Some? <==> Get(item, key).Found? && Get(item, key).value.JArr?
    ensures r.Some? ==> r.value == Get(item, key).value.items
  {
    match Get(item, key)
    case Found(JArr(a)) => Some(a)
    case _ => None
  }

  /** Building `transformedJson` from the parsed file. */
  function Transform(original: Json, sectionId: string): (r: Outcome)
    ensures r.Built? ==> r.upload.sectionId == sectionId
    ensures r.Built? ==> r.upload.data.Keys <= {"0"}
    ensures r == Threw <==> original.JNull? || (Get(original, "0").Found? && Truthy(Get(original, "0").value)
                                               && (ListAt(Get(original, "0").value, "segments").None?
                                                   || ListAt(Get(original, "0").value, "questions").None?))
  {
    match Get(original, "0")
    case TypeError => Threw
    case Missing => Built(Upload(sectionId, map[]))
    case Found(batch) =>
      if !Truthy(batch) then Built(Upload(sectionId, map[]))
      else
        match ListAt(batch, "segments")
        case None => Threw
        case Some(segments) =>
          match ListAt(batch, "questions")
          case None => Threw
          case Some(questions) =>
            Built(Upload(sectionId, map["0" := Batch(Renumber(segments, 1), Renumber(questions, 2))]))
  }

  /** `handleUpload`: the upload happens only with a file selected, a file
      that parses, and a transformation that does not throw. `parsed` is the
      outcome of `JSON.parse`, `None` when it throws. */
  function HandleUpload(fileSelected: bool, parsed: Option<Json>, sectionId: string): (sent: Option<Upload>)
    ensures sent.Some? <==> fileSelected && parsed.Some? && Transform(parsed.value, sectionId).Built?
    ensures sent.Some? ==> sent.value == Transform(parsed.value, sectionId).upload
  {
    if !fileSelected || parsed.None? then None
    else
      match Transform(parsed.value, sectionId)
      case Threw => None
      case Built(u) => Some(u)
  }

  // ---------------------------------------------------------------------
  // What the numbering promises

  /** The `sequence` property of a numbered item. */
  function SequenceNumber(v: Json): Option<real> {
    if v.JObj? && "sequence" in v.fields && v.fields["sequence"].JNum? then Some(v.fields["sequence"].n)
    else None
  }

  /** The batch built from a file whose key "0" holds lists of segments and
      questions. */
  predicate BuiltFrom(original: Json, sectionId: string, segments: seq<Json>, questions: seq<Json>, b: Batch) {
    && Get(original, "0").Found?
    && ListAt(Get(original, "0").value, "segments") == Some(segments)
    && ListAt(Get(original, "0").value, "questions") == Some(questions)
    && Transform(original, sectionId) == Built(Upload(sectionId, map["0" := b]))
  }

  /** The batch holds the two lists, numbered. */
  lemma BatchIsRenumbered(original: Json, sectionId: string, segments: seq<Json>, questions: seq<Json>, b: Batch)
    requires BuiltFrom(original, sectionId, segments, questions, b)
    ensures b == Batch(Renumber(segments, 1), Renumber(questions, 2))
  {
    var item := Get(original, "0").value;
    var data := Transform(original, sectionId).upload.data;
    assert "0" in data && data["0"] == b;
  }

  /** Whenever the payload has a batch, it was built from two lists found
      under key "0", and only then. */
  lemma BatchComesFromKeyZero(original: Json, sectionId: string)
    requires Transform(original, sectionId).Built?
    ensures var data := Transform(original, sectionId).upload.data;
            "0" in data <==> Get(original, "0").Found? && Truthy(Get(original, "0").value)
    ensures var data := Transform(original, sectionId).upload.data;
            "0" in data ==>
              BuiltFrom(original, sectionId, ListAt(Get(original, "0").value, "segments").value,
                        ListAt(Get(original, "0").value, "questions").value, data["0"])
  {
  }

  /** Segment i is numbered 2i + 1 and question i is 2i + 2, the number right
      after segment i's; the lists keep their lengths. */
  lemma Numbering(original: Json, sectionId: string, segments: seq<Json>, questions: seq<Json>, b: Batch)
    requires BuiltFrom(original, sectionId, segments, questions, b)
    ensures |b.segments| == |segments| && |b.questions| == |questions|
    ensures forall i :: 0 <= i < |segments| ==> SequenceNumber(b.segments[i]) == Some((2 * i + 1) as real)
    ensures forall i :: 0 <= i < |questions| ==> SequenceNumber(b.questions[i]) == Some((2 * i + 2) as real)
    ensures forall i :: 0 <= i < |segments| && i < |questions| ==>
              SequenceNumber(b.questions[i]).value == SequenceNumber(b.segments[i]).value + 1.0
  {
    BatchIsRenumbered(original, sectionId, segments, questions, b);
  }

  /** A real that is an odd, or an even, whole number. */
  predicate IsOdd(x: real) {
    x.Floor as real == x && x.Floor % 2 == 1
  }

  predicate IsEven(x: real) {
    x.Floor as real == x && x.Floor % 2 == 0
  }

  /** Every segment number is odd and every question number even. */
  lemma NumbersHaveParity(original: Json, sectionId: string, segments: seq<Json>,
                          questions: seq<Json>, b: Batch)
    requires BuiltFrom(original, sectionId, segments, questions, b)
    ensures forall i :: 0 <= i < |b.segments| ==>
              SequenceNumber(b.segments[i]).Some? && IsOdd(SequenceNumber(b.segments[i]).value)
    ensures forall i :: 0 <= i < |b.questions| ==>
              SequenceNumber(b.questions[i]).Some? && IsEven(SequenceNumber(b.questions[i]).value)
  {
    Numbering(original, sectionId, segments, questions, b);
  }

  /** No segment shares its number with a question. */
  lemma NumbersAreDistinct(original: Json, sectionId: string, segments: seq<Json>,
                           questions: seq<Json>, b: Batch)
    requires BuiltFrom(original, sectionId, segments, questions, b)
    ensures forall i, j :: 0 <= i < |b.segments| && 0 <= j < |b.questions| ==>
              SequenceNumber(b.segments[i]) != SequenceNumber(b.questions[j])
  {
    NumbersHaveParity(original, sectionId, segments, questions, b);
    forall i, j | 0 <= i < |b.segments| && 0 <= j < |b.questions|
      ensures SequenceNumber(b.segments[i]) != SequenceNumber(b.questions[j])
    {
      var x := SequenceNumber(b.segments[i]).value;
      assert IsOdd(x);
      assert IsEven(SequenceNumber(b.questions[j]).value);
    }
  }

  /** Within each list the numbers strictly increase. */
  lemma NumbersIncrease(original: Json, sectionId: string, segments: seq<Json>,
                        questions: seq<Json>, b: Batch)
    requires BuiltFrom(original, sectionId, segments, questions, b)
    ensures forall i :: 0 <= i < |b.segments| ==> SequenceNumber(b.segments[i]).Some?
    ensures forall i :: 0 <= i < |b.questions| ==> SequenceNumber(b.questions[i]).Some?
    ensures forall i, j :: 0 <= i < j < |b.segments| ==>
              SequenceNumber(b.segments[i]).value < SequenceNumber(b.segments[j]).value
    ensures forall i, j :: 0 <= i < j < |b.questions| ==>
              SequenceNumber(b.questions[i]).value < SequenceNumber(b.questions[j]).value
  {
    Numbering(original, sectionId, segments, questions, b);
  }

  /** Apart from `sequence`, every numbered item carries exactly the
      properties its original spreads to. */
  lemma OtherFieldsKept(original: Json, sectionId: string, segments: seq<Json>, questions: seq<Json>, b: Batch)
    requires BuiltFrom(original, sectionId, segments, questions, b)
    ensures |b.segments| == |segments| && |b.questions| == |questions|
    ensures forall i :: 0 <= i < |segments| ==> b.segments[i].JObj?
    ensures forall i :: 0 <= i < |questions| ==> b.questions[i].JObj?
    ensures forall i, k :: 0 <= i < |segments| && k != "sequence" ==>
              (k in b.segments[i].fields <==> k in Spread(segments[i]))
              && (k in Spread(segments[i]) ==> b.segments[i].fields[k] == Spread(segments[i])[k])
    ensures forall i, k :: 0 <= i < |questions| && k != "sequence" ==>
              (k in b.questions[i].fields <==> k in Spread(questions[i]))
              && (k in Spread(questions[i]) ==> b.questions[i].fields[k] == Spread(questions[i])[k])
  {
    BatchIsRenumbered(original, sectionId, segments, questions, b);
  }

  /** Without a truthy key "0" the payload carries no batch; a file that
      parses to `null` throws on the lookup. */
  lemma NoBatchWithoutKeyZero(original: Json, sectionId: string)
    requires !original.JNull?
    requires !(Get(original, "0").Found? && Truthy(Get(original, "0").value))
    ensures Transform(original, sectionId) == Built(Upload(sectionId, map[]))
  {
  }

  /** An example payload: two segments and one question under "0", and an
      array given in place of the batch, whose element "0" is then used. */
  method UploadWalkthrough() {
    var seg := JObj(map["title" := JStr("intro"), "sequence" := JNum(9.0)]);
    var q := JObj(map["text" := JStr("why?")]);
    var batch := JObj(map["segments" := JArr([seg, seg]), "questions" := JArr([q])]);
    var file := JObj(map["0" := batch]);
    var sent := HandleUpload(true, Some(file), "sec-1");
    assert Get(file, "0") == Found(batch);
    assert ListAt(batch, "segments") == Some([seg, seg]);
    assert ListAt(batch, "questions") == Some([q]);
    assert sent.Some? && sent.value.sectionId == "sec-1";
    var b := sent.value.data["0"];
    assert SequenceNumber(b.segments[1]) == Some(3.0);
    assert SequenceNumber(b.questions[0]) == Some(2.0);
    assert b.segments[0].fields["title"] == JStr("intro");

    assert HandleUpload(false, Some(file), "sec-1") == None;
    assert HandleUpload(true, None, "sec-1") == None;
    assert HandleUpload(true, Some(JNull), "sec-1") == None;
    var listed := JArr([batch]);
    assert Decimal(0) == "0";
    assert Get(listed, "0") == Found(batch);
  }
}
