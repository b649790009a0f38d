/** The one-line report a failing process leaves on its standard error (process_report.rs). */
module ProcessReports {
  import opened Wrappers

  datatype Field = Field(key: string, value: string)

  datatype ProcessReport = ProcessReport(code: string, message: string, fields: seq<Field>)

  function SanitizeChar(c: char): char {
    if '!' <= c <= '~' && c != ':' then c else '_'
  }

  function Sanitize(value: string): string {
    seq(|value|, i requires 0 <= i < |value| => SanitizeChar(value[i]))
  }

  function FieldText(field: Field): string {
    " " + field.key + "=" + Sanitize(field.value)
  }

  function FieldsText(fields: seq<Field>): string {
    if fields == [] then "" else FieldText(fields[0]) + FieldsText(fields[1..])
  }

  function Line(report: ProcessReport): string {
    report.code + FieldsText(report.fields) + ": " + report.message
  }

  lemma {:induction false} FieldsTextAppend(fields: seq<Field>, field: Field)
    ensures FieldsText(fields + [field]) == FieldsText(fields) + FieldText(field)
  {
    if fields == [] {
      assert fields + [field] == [field];
    } else {
      assert (fields + [field])[1..] == fields[1..] + [field];
      FieldsTextAppend(fields[1..], field);
    }
  }

  method StderrLine(report: ProcessReport) returns (line: string)
    ensures line == Line(report)
  {
    line := report.code;
    for i := 0 to |report.fields|
      invariant line == report.code + FieldsText(report.fields[..i])
    {
      FieldsTextAppend(report.fields[..i], report.fields[i]);
      assert report.fields[..i + 1] == report.fields[..i] + [report.fields[i]];
      line := line + " ";
      line := line + report.fields[i].key;
      line := line + "=";
      line := line + Sanitize(report.fields[i].value);
    }
    assert report.fields[..|report.fields|] == report.fields;
    line := line + ": ";
    line := line + report.message;
  }

  // ---- Reading a line back ----

  function UpTo(s: string, stops: set<char>): (head: string)
    ensures |head| <= |s|
  {
    if s == "" || s[0] in stops then "" else [s[0]] + UpTo(s[1..], stops)
  }

  lemma {:induction false} UpToStop(head: string, tail: string, stops: set<char>)
    requires forall c | c in head :: c !in stops
    requires tail != "" && tail[0] in stops
    ensures UpTo(head + tail, stops) == head && (head + tail)[|head|..] == tail
  {
    if head == "" {
      assert head + tail == tail;
    } else {
      assert (head + tail)[1..] == head[1..] + tail;
      UpToStop(head[1..], tail, stops);
    }
  }

  const AFTER_VALUE := {' ', ':'}

  /** One field, and what follows it. */
  function ReadField(text: string): (r: Option<(Field, string)>)
    ensures r.Some? ==> |r.value.1| < |text|
  {
    if text == "" || text[0] != ' ' then None
    else
      var key := UpTo(text[1..], {'='});
      var rest := text[1..][|key|..];
      if rest == "" then None
      else
        var value := UpTo(rest[1..], AFTER_VALUE);
        Some((Field(key, value), rest[1..][|value|..]))
  }

  /** The fields and the message that follow the code. */
  function ReadTail(text: string): Option<(seq<Field>, string)>
    decreases |text|
  {
    if |text| >= 2 && text[0] == ':' && text[1] == ' ' then Some(([], text[2..]))
    else
      match ReadField(text)
      case None => None
      case Some((field, rest)) =>
        match ReadTail(rest)
        case None => None
        case Some((fields, message)) => Some(([field] + fields, message))
  }

  function Read(line: string): Option<ProcessReport> {
    var code := UpTo(line, AFTER_VALUE);
    match ReadTail(line[|code|..])
    case None => None
    case Some((fields, message)) => Some(ProcessReport(code, message, fields))
  }

  function ShownField(field: Field): Field {
    field.(value := Sanitize(field.value))
  }

  function ShownFields(fields: seq<Field>): seq<Field> {
    if fields == [] then [] else [ShownField(fields[0])] + ShownFields(fields[1..])
  }

  /** The report with its values as the line shows them. */
  function Shown(report: ProcessReport): ProcessReport {
    report.(fields := ShownFields(report.fields))
  }

  predicate Without(s: string, stops: set<char>) {
    forall c | c in s :: c !in stops
  }

  predicate PlainKeys(fields: seq<Field>) {
    forall field | field in fields :: Without(field.key, {'='})
  }

  predicate Plain(report: ProcessReport) {
    Without(report.code, AFTER_VALUE) && PlainKeys(report.fields)
  }

  lemma TailStarts(fields: seq<Field>, message: string)
    ensures var tail := FieldsText(fields) + ": " + message;
            tail != "" && tail[0] in AFTER_VALUE
            && (fields == [] ==> tail[..2] == ": ") && (fields != [] ==> tail[0] == ' ')
  {
    if fields != [] {
      assert FieldText(fields[0])[0] == ' ';
      assert (FieldsText(fields) + ": " + message)[0] == ' ';
    }
  }

  lemma FieldReadsBack(key: string, value: string, tail: string)
    requires Without(key, {'='}) && Without(value, AFTER_VALUE)
    requires tail != "" && tail[0] in AFTER_VALUE
    ensures ReadField(" " + key + "=" + value + tail) == Some((Field(key, value), tail))
  {
    var text, rest := " " + key + "=" + value + tail, "=" + value + tail;
    assert text == [' '] + (key + rest);
    assert text[1..] == key + rest;
    UpToStop(key, rest, {'='});
    assert rest == ['='] + (value + tail);
    assert rest[1..] == value + tail;
    UpToStop(value, tail, AFTER_VALUE);
  }

  lemma ReadTailNext(text: string, field: Field, tail: string)
    requires ReadField(text) == Some((field, tail)) && ReadTail(tail).Some?
    ensures ReadTail(text) == Some(([field] + ReadTail(tail).value.0, ReadTail(tail).value.1))
  {
    assert text[0] == ' ';
  }

  lemma {:induction false} TailReadsBack(fields: seq<Field>, message: string)
    requires PlainKeys(fields)
    ensures ReadTail(FieldsText(fields) + ": " + message) == Some((ShownFields(fields), message))
  {
    if fields == [] {
      assert (FieldsText(fields) + ": " + message)[2..] == message;
    } else {
      TailReadsBack(fields[1..], message);
      FirstFieldReadsBack(fields, message);
      ReadTailNext(FieldsText(fields) + ": " + message,
          ShownField(fields[0]), FieldsText(fields[1..]) + ": " + message);
    }
  }

  lemma FirstFieldReadsBack(fields: seq<Field>, message: string)
    requires fields != [] && PlainKeys(fields)
    ensures ReadField(FieldsText(fields) + ": " + message)
         == Some((ShownField(fields[0]), FieldsText(fields[1..]) + ": " + message))
  {
    TailStarts(fields[1..], message);
    TextSplits(fields, message);
    SanitizeSettles(fields[0].value);
    FieldReadsBack(fields[0].key, Sanitize(fields[0].value), FieldsText(fields[1..]) + ": " + message);
  }

  lemma TextSplits(fields: seq<Field>, message: string)
    requires fields != []
    ensures FieldsText(fields) + ": " + message
         == " " + fields[0].key + "=" + Sanitize(fields[0].value) + (FieldsText(fields[1..]) + ": " + message)
  {
    var first, others := FieldText(fields[0]), FieldsText(fields[1..]);
    assert FieldsText(fields) == first + others;
    assert first + others + ": " + message == first + (others + ": " + message);
  }

  lemma {:induction false} UpToIsWithout(s: string, stops: set<char>)
    ensures Without(UpTo(s, stops), stops)
  {
    if s == "" || s[0] in stops {
    } else {
      UpToIsWithout(s[1..], stops);
    }
  }

  lemma {:induction false} TailReadIsPlain(text: string)
    requires ReadTail(text).Some?
    ensures PlainKeys(ReadTail(text).value.0)
    decreases |text|
  {
    if |text| >= 2 && text[0] == ':' && text[1] == ' ' {
    } else {
      TailReadIsPlain(ReadField(text).value.1);
      UpToIsWithout(text[1..], {'='});
    }
  }

  lemma {:induction false} ShownKeysArePlain(fields: seq<Field>)
    ensures PlainKeys(ShownFields(fields)) <==> PlainKeys(fields)
  {
    if fields == [] {
    } else {
      ShownKeysArePlain(fields[1..]);
      assert ShownFields(fields)[0].key == fields[0].key && ShownFields(fields)[1..] == ShownFields(fields[1..]);
      PlainKeysNext(fields);
      PlainKeysNext(ShownFields(fields));
    }
  }

  lemma PlainKeysNext(fields: seq<Field>)
    requires fields != []
    ensures PlainKeys(fields) <==> Without(fields[0].key, {'='}) && PlainKeys(fields[1..])
  {
    assert fields == [fields[0]] + fields[1..];
  }

  /** A line reads back as the report it was printed from, with its values sanitised, exactly if
    * the code has no space or colon and no key has an equals sign. */
  lemma LineReadsBack(report: ProcessReport)
    ensures Read(Line(report)) == Some(Shown(report)) <==> Plain(report)
  {
    if Plain(report) {
      PlainLineReadsBack(report);
    } else if Read(Line(report)) == Some(Shown(report)) {
      var code := UpTo(Line(report), AFTER_VALUE);
      UpToIsWithout(Line(report), AFTER_VALUE);
      TailReadIsPlain(Line(report)[|code|..]);
      ShownKeysArePlain(report.fields);
    }
  }

  lemma PlainLineReadsBack(report: ProcessReport)
    requires Plain(report)
    ensures Read(Line(report)) == Some(Shown(report))
  {
    var tail := FieldsText(report.fields) + ": " + report.message;
    TailStarts(report.fields, report.message);
    assert Line(report) == report.code + tail;
    UpToStop(report.code, tail, AFTER_VALUE);
    TailReadsBack(report.fields, report.message);
  }

  /** So equal lines mean equal reports, up to sanitised values. */
  lemma LinesAreUnique(a: ProcessReport, b: ProcessReport)
    requires Plain(a) && Plain(b)
    ensures Line(a) == Line(b) <==> Shown(a) == Shown(b)
  {
    PlainLineReadsBack(a);
    PlainLineReadsBack(b);
    TextShows(a.fields);
    TextShows(b.fields);
  }

  lemma {:induction false} TextShows(fields: seq<Field>)
    ensures FieldsText(ShownFields(fields)) == FieldsText(fields)
  {
    if fields == [] {
    } else {
      TextShows(fields[1..]);
      assert ShownFields(fields)[1..] == ShownFields(fields[1..]);
      SanitizeSettles(fields[0].value);
    }
  }

  /** Sanitising keeps the printable ASCII characters but the colon, and only those, and puts an
    * underscore for every other. So the value is free of separators and never changes again. */
  lemma SanitizeSettles(value: string)
    ensures |Sanitize(value)| == |value|
    ensures forall k | 0 <= k < |value| ::
              Sanitize(value)[k] == if 33 <= value[k] as int <= 126 && value[k] as int != 58 then value[k] else '_'
    ensures Without(Sanitize(value), AFTER_VALUE)
    ensures Sanitize(Sanitize(value)) == Sanitize(value)
  {
  }

  /** A key with an equals sign can be mistaken for part of the value. */
  lemma EqualsInKeyIsAmbiguous()
    ensures var a := ProcessReport("C", "m", [Field("k=v", "w")]);
            var b := ProcessReport("C", "m", [Field("k", "v=w")]);
            Line(a) == Line(b) && Shown(a) != Shown(b)
  {
    var a, b := Field("k=v", "w"), Field("k", "v=w");
    assert Sanitize("w") == "w" && Sanitize("v=w") == "v=w";
    assert FieldsText([a]) == FieldText(a) + FieldsText([]) && FieldsText([b]) == FieldText(b) + FieldsText([]);
    assert FieldText(a) == " k=v=w" == FieldText(b);
    assert ShownFields([a])[0].key == "k=v" && ShownFields([b])[0].key == "k";
  }
}
