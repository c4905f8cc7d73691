/**
 * The dataset loaders: `parseCSV` over the uploaded text and `parseJSON` over
 * the value that `JSON.parse` produced. `parseFloat` is a parameter: the
 * model does not fix how a field's text becomes a number.
 */
module Parsers {
  import opened Wrappers
  import Text

  /** The errors the loaders throw. */
  datatype InputError =
    | NoNumericData     // "No valid numeric data found in CSV/JSON file"
    | InvalidFormat     // "Invalid JSON format. Expected array of numbers or object with data/values array."
    | NullPropertyRead  // the TypeError of reading `.data` on a top-level `null`

  // ---------------------------------------------------------------- CSV

  /** `text.trim().split('\n')`: the lines of the upload. */
  function Lines(text: string): (lines: seq<string>)
    ensures |lines| >= 1
  {
    Text.Split(Text.Trim(text), '\n')
  }

  /**
   * The number one CSV line contributes. The source separates the one-field
   * case from the many-field case, but both parse the last comma field.
   */
  function LineValue(line: string, parseFloat: string -> Option<real>): Option<real>
  {
    var values := Text.Split(line, ',');
    if |values| == 1 then parseFloat(values[0])
    else parseFloat(values[|values| - 1])
  }

  /** Both branches of `LineValue` parse the line's last comma field. */
  lemma LineValueIsLastField(line: string, parseFloat: string -> Option<real>)
    ensures LineValue(line, parseFloat) == parseFloat(Text.LastField(line, ','))
  {
  }

  /** The numbers of `lines`, in line order: one per line whose last field parses. */
  function CsvData(lines: seq<string>, parseFloat: string -> Option<real>): (data: seq<real>)
    ensures |data| <= |lines|
  {
    if |lines| == 0 then []
    else
      var init := CsvData(lines[..|lines| - 1], parseFloat);
      match LineValue(lines[|lines| - 1], parseFloat)
      case Some(x) => init + [x]
      case None => init
  }

  /**
   * `parseCSV(text)`: splits the upload into lines, collects their numbers,
   * and throws when none was found.
   */
  method ParseCsv(text: string, parseFloat: string -> Option<real>) returns (r: Result<seq<real>, InputError>)
    ensures r.Ok? <==> CsvData(Lines(text), parseFloat) != []
    ensures r.Ok? ==> r.value == CsvData(Lines(text), parseFloat)
    ensures r.Err? ==> r.error == NoNumericData
  {
    var lines := Lines(text);
    var data := CollectNumbers(lines, parseFloat);
    if |data| == 0 {
      return Err(NoNumericData);
    }
    return Ok(data);
  }

  /** The loop of `parseCSV`: for each line, push the number its last comma field parses to, if any. */
  method CollectNumbers(lines: seq<string>, parseFloat: string -> Option<real>) returns (data: seq<real>)
    ensures data == CsvData(lines, parseFloat)
  {
    data := [];
    for i := 0 to |lines|
      invariant data == CsvData(lines[..i], parseFloat)
    {
      CsvDataPrefix(lines, i, parseFloat);
      var values := Text.Split(lines[i], ',');
      if |values| == 1 {
        var num := parseFloat(values[0]);
        assert num == LineValue(lines[i], parseFloat);
        if num.Some? { data := data + [num.value]; }
      } else {
        var num := parseFloat(values[|values| - 1]);
        assert num == LineValue(lines[i], parseFloat);
        if num.Some? { data := data + [num.value]; }
      }
    }
    assert lines[..|lines|] == lines;
  }

  /** The numbers of one more line: those of the lines before it, then its own. */
  lemma CsvDataPrefix(lines: seq<string>, i: int, parseFloat: string -> Option<real>)
    requires 0 <= i < |lines|
    ensures CsvData(lines[..i + 1], parseFloat)
      == CsvData(lines[..i], parseFloat) + match LineValue(lines[i], parseFloat) case Some(x) => [x] case None => []
  {
    assert lines[..i + 1][..i] == lines[..i];
  }

  /** Line order is kept: the numbers of two runs of lines are the numbers of each, concatenated. */
  lemma {:induction false} CsvDataAppend(a: seq<string>, b: seq<string>, parseFloat: string -> Option<real>)
    ensures CsvData(a + b, parseFloat) == CsvData(a, parseFloat) + CsvData(b, parseFloat)
  {
    if |b| > 0 {
      var b' := b[..|b| - 1];
      assert (a + b)[..|a + b| - 1] == a + b';
      assert (a + b)[|a + b| - 1] == b[|b| - 1];
      CsvDataAppend(a, b', parseFloat);
    } else {
      assert a + b == a;
    }
  }

  /** No number is found exactly when no line's last field parses. */
  lemma {:induction false} CsvDataEmpty(lines: seq<string>, parseFloat: string -> Option<real>)
    ensures CsvData(lines, parseFloat) == []
      <==> forall i :: 0 <= i < |lines| ==> LineValue(lines[i], parseFloat) == None
  {
    if |lines| > 0 {
      var init, last := lines[..|lines| - 1], lines[|lines| - 1];
      CsvDataEmpty(init, parseFloat);
      assert CsvData(lines, parseFloat) == [] <==> CsvData(init, parseFloat) == [] && LineValue(last, parseFloat) == None;
      if CsvData(lines, parseFloat) == [] {
        forall i | 0 <= i < |lines| ensures LineValue(lines[i], parseFloat) == None {
          if i < |init| { assert lines[i] == init[i]; }
        }
      } else if CsvData(init, parseFloat) != [] {
        var i :| 0 <= i < |init| && LineValue(init[i], parseFloat) != None;
        assert lines[i] == init[i];
      }
    }
  }

  /** Each line contributes exactly the number its last field parses to, or nothing. */
  lemma CsvDataOneLine(line: string, parseFloat: string -> Option<real>)
    ensures CsvData([line], parseFloat)
      == match parseFloat(Text.LastField(line, ',')) case Some(x) => [x] case None => []
  {
    assert [line][..0] == [];
    LineValueIsLastField(line, parseFloat);
  }

  /** A single-column upload `1\n2\n3` gives `[1, 2, 3]`. */
  lemma CsvSingleColumn(text: string, parseFloat: string -> Option<real>)
    requires text == "1\n2\n3"
    requires parseFloat("1") == Some(1.0) && parseFloat("2") == Some(2.0) && parseFloat("3") == Some(3.0)
    ensures CsvData(Lines(text), parseFloat) == [1.0, 2.0, 3.0]
  {
    LinesOfSingleColumn(text);
    ThreeRows("1", "2", "3", 1.0, 2.0, 3.0, parseFloat);
    Triple(1.0, 2.0, 3.0);
  }

  lemma Triple(a: real, b: real, c: real)
    ensures [a] + [b] + [c] == [a, b, c]
  {
  }

  /** Three comma-free rows contribute their own parses, in order. */
  lemma ThreeRows(l1: string, l2: string, l3: string, x1: real, x2: real, x3: real, parseFloat: string -> Option<real>)
    requires ',' !in l1 && ',' !in l2 && ',' !in l3
    requires parseFloat(l1) == Some(x1) && parseFloat(l2) == Some(x2) && parseFloat(l3) == Some(x3)
    ensures CsvData([l1] + [l2] + [l3], parseFloat) == [x1] + [x2] + [x3]
  {
    OneNumberLine(l1, x1, parseFloat);
    OneNumberLine(l2, x2, parseFloat);
    OneNumberLine(l3, x3, parseFloat);
    CsvDataAppend([l1], [l2], parseFloat);
    CsvDataAppend([l1] + [l2], [l3], parseFloat);
  }

  /** A comma-free line whose text parses to `x` contributes `[x]`. */
  lemma OneNumberLine(line: string, x: real, parseFloat: string -> Option<real>)
    requires ',' !in line && parseFloat(line) == Some(x)
    ensures CsvData([line], parseFloat) == [x]
  {
    Text.SplitPiece(line, ',');
    CsvDataOneLine(line, parseFloat);
  }

  lemma LinesOfSingleColumn(text: string)
    requires text == "1\n2\n3"
    ensures Lines(text) == ["1"] + ["2"] + ["3"]
  {
    assert Text.TrimStart(text) == text;
    assert Text.TrimEnd(text) == text;
    assert Text.Join(["1", "2", "3"], '\n') == text;
    Text.SplitJoin(["1", "2", "3"], '\n');
    assert ["1"] + ["2"] + ["3"] == ["1", "2", "3"];
  }

  /** A two-column upload `a,1\nb,2` gives `[1, 2]`: the last column is taken. */
  lemma CsvLastColumn(text: string, parseFloat: string -> Option<real>)
    requires text == "a,1\nb,2"
    requires parseFloat("1") == Some(1.0) && parseFloat("2") == Some(2.0)
    ensures CsvData(Lines(text), parseFloat) == [1.0, 2.0]
  {
    LinesOfTwoColumns(text);
    TwoRows("a", "1", "b", "2", 1.0, 2.0, parseFloat);
  }

  lemma LinesOfTwoColumns(text: string)
    requires text == "a,1\nb,2"
    ensures Lines(text) == ["a" + "," + "1"] + ["b" + "," + "2"]
  {
    assert Text.TrimStart(text) == text;
    assert Text.TrimEnd(text) == text;
    assert Text.Join(["a,1", "b,2"], '\n') == text;
    Text.SplitJoin(["a,1", "b,2"], '\n');
    assert "a" + "," + "1" == "a,1" && "b" + "," + "2" == "b,2";
    assert ["a" + "," + "1"] + ["b" + "," + "2"] == ["a,1", "b,2"];
  }

  /** Two two-field rows contribute the numbers of their second fields, in order. */
  lemma TwoRows(a1: string, b1: string, a2: string, b2: string, x1: real, x2: real, parseFloat: string -> Option<real>)
    requires ',' !in a1 && ',' !in b1 && ',' !in a2 && ',' !in b2
    requires parseFloat(b1) == Some(x1) && parseFloat(b2) == Some(x2)
    ensures CsvData([a1 + "," + b1] + [a2 + "," + b2], parseFloat) == [x1, x2]
  {
    LastNumberLine(a1 + "," + b1, a1, b1, x1, parseFloat);
    LastNumberLine(a2 + "," + b2, a2, b2, x2, parseFloat);
    CsvDataAppend([a1 + "," + b1], [a2 + "," + b2], parseFloat);
  }

  /** A two-field line contributes the number its second field parses to. */
  lemma LastNumberLine(line: string, a: string, b: string, x: real, parseFloat: string -> Option<real>)
    requires ',' !in a && ',' !in b && line == a + "," + b
    requires parseFloat(b) == Some(x)
    ensures CsvData([line], parseFloat) == [x]
  {
    Text.SplitJoin([a, b], ',');
    assert Text.Join([a, b], ',') == line;
    CsvDataOneLine(line, parseFloat);
  }

  // ---------------------------------------------------------------- JSON

  /** A value as `JSON.parse` returns it; an object keeps the last value of a repeated key. */
  datatype Json =
    | JNull
    | JBool(b: bool)
    | JNumber(n: real)
    | JString(s: string)
    | JArray(items: seq<Json>)
    | JObject(fields: map<string, Json>)

  /** `items.filter(item => typeof item === 'number')`, as reals. */
  function Numbers(items: seq<Json>): (r: seq<real>)
    ensures |r| <= |items|
  {
    if |items| == 0 then []
    else
      var rest := Numbers(items[1..]);
      if items[0].JNumber? then [items[0].n] + rest else rest
  }

  /** The filter keeps the order: filtering two runs is filtering each, concatenated. */
  lemma {:induction false} NumbersAppend(a: seq<Json>, b: seq<Json>)
    ensures Numbers(a + b) == Numbers(a) + Numbers(b)
  {
    if |a| > 0 {
      assert (a + b)[0] == a[0] && (a + b)[1..] == a[1..] + b;
      NumbersAppend(a[1..], b);
    } else {
      assert a + b == b;
    }
  }

  /** The filter keeps exactly the numbers: `x` survives iff the array holds the number `x`. */
  lemma {:induction false} NumbersExactly(items: seq<Json>, x: real)
    ensures x in Numbers(items) <==> JNumber(x) in items
  {
    if |items| > 0 {
      NumbersExactly(items[1..], x);
      assert items == [items[0]] + items[1..];
    }
  }

  /** An array of numbers only filters to those numbers. */
  lemma {:induction false} NumbersOfNumbers(xs: seq<real>)
    ensures Numbers(seq(|xs|, i requires 0 <= i < |xs| => JNumber(xs[i]))) == xs
  {
    if |xs| > 0 {
      var items := seq(|xs|, i requires 0 <= i < |xs| => JNumber(xs[i]));
      assert items[1..] == seq(|xs[1..]|, i requires 0 <= i < |xs[1..]| => JNumber(xs[1..][i]));
      NumbersOfNumbers(xs[1..]);
      assert [xs[0]] + xs[1..] == xs;
    }
  }

  /**
   * Which array the loader reads: the value itself when it is an array, else
   * its `data` field when that is an array, else its `values` field when that
   * is an array. Property access on `null` throws.
   */
  function SelectArray(json: Json): (r: Result<seq<Json>, InputError>)
    ensures r.Err? ==> r.error != NoNumericData
  {
    match json
    case JArray(items) => Ok(items)
    case JNull => Err(NullPropertyRead)
    case _ =>
      if Field(json, "data").Some? && Field(json, "data").value.JArray? then Ok(Field(json, "data").value.items)
      else if Field(json, "values").Some? && Field(json, "values").value.JArray? then Ok(Field(json, "values").value.items)
      else Err(InvalidFormat)
  }

  /** `json[key]` on a value that is not `null`: an own field of an object, `undefined` otherwise. */
  function Field(json: Json, key: string): Option<Json>
  {
    if json.JObject? && key in json.fields then Some(json.fields[key]) else None
  }

  /**
   * `parseJSON` after `JSON.parse`: the numbers of the selected array, in
   * order; a selection with no number throws.
   */
  function ParseJson(json: Json): (r: Result<seq<real>, InputError>)
    ensures r.Ok? ==> r.value != []
    ensures r.Ok? <==> SelectArray(json).Ok? && Numbers(SelectArray(json).value) != []
  {
    match SelectArray(json)
    case Err(e) => Err(e)
    case Ok(items) =>
      var data := Numbers(items);
      if |data| == 0 then Err(NoNumericData) else Ok(data)
  }

  /** A top-level array is read whatever else holds. */
  lemma TopLevelArrayFirst(items: seq<Json>)
    ensures ParseJson(JArray(items)) == if Numbers(items) == [] then Err(NoNumericData) else Ok(Numbers(items))
  {
  }

  /** An object's `data` array is preferred to its `values` array, even when `data` holds no number. */
  lemma DataBeforeValues(fields: map<string, Json>, data: seq<Json>)
    requires "data" in fields && fields["data"] == JArray(data)
    ensures ParseJson(JObject(fields)) == if Numbers(data) == [] then Err(NoNumericData) else Ok(Numbers(data))
  {
  }

  /** Without a `data` array, an object's `values` array is read. */
  lemma ValuesFallback(fields: map<string, Json>, values: seq<Json>)
    requires "data" !in fields || !fields["data"].JArray?
    requires "values" in fields && fields["values"] == JArray(values)
    ensures ParseJson(JObject(fields)) == if Numbers(values) == [] then Err(NoNumericData) else Ok(Numbers(values))
  {
  }

  /** Any other shape is an invalid format, except `null`, on which the field read itself fails. */
  lemma OtherShapesRejected(json: Json)
    requires !json.JArray?
    requires Field(json, "data").None? || !Field(json, "data").value.JArray?
    requires Field(json, "values").None? || !Field(json, "values").value.JArray?
    ensures ParseJson(json) == Err(if json.JNull? then NullPropertyRead else InvalidFormat)
  {
  }

  /** `[1,2,3]` gives `[1,2,3]`, `{"data":[1,2]}` gives `[1,2]` and `{"foo":1}` is rejected. */
  lemma JsonExamples()
    ensures ParseJson(JArray([JNumber(1.0), JNumber(2.0), JNumber(3.0)])) == Ok([1.0, 2.0, 3.0])
    ensures ParseJson(JObject(map["data" := JArray([JNumber(1.0), JNumber(2.0)])])) == Ok([1.0, 2.0])
    ensures ParseJson(JObject(map["foo" := JNumber(1.0)])) == Err(InvalidFormat)
  {
    NumbersOfNumbers([1.0, 2.0, 3.0]);
    assert seq(3, i requires 0 <= i < 3 => JNumber([1.0, 2.0, 3.0][i])) == [JNumber(1.0), JNumber(2.0), JNumber(3.0)];
    NumbersOfNumbers([1.0, 2.0]);
    assert seq(2, i requires 0 <= i < 2 => JNumber([1.0, 2.0][i])) == [JNumber(1.0), JNumber(2.0)];
  }
}
