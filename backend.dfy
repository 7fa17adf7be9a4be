/**
 The backend-config reader (`readBackendConfig`): a file of `key = "value"`
 lines folded, line by line, into a five-field record. The model starts from
 the lines themselves; opening the file and scanning it into lines is I/O.
 */
module Backend {
  import opened Wrappers
  import opened Text

  /** The five settings the reader recognises. */
  datatype Field = Bucket | Key | Region | Profile | DynamoDBTable

  /** The key that names a field in the file. */
  function FieldName(f: Field): string {
    match f
    case Bucket => "bucket"
    case Key => "key"
    case Region => "region"
    case Profile => "profile"
    case DynamoDBTable => "dynamodb_table"
  }

  /** The field a (trimmed) key names, if any: exact, case-sensitive match. */
  function FieldOf(key: string): (r: Option<Field>)
    ensures r.Some? ==> FieldName(r.value) == key
    ensures forall f :: FieldName(f) == key ==> r == Some(f)
  {
    if key == "bucket" then Some(Bucket)
    else if key == "key" then Some(Key)
    else if key == "region" then Some(Region)
    else if key == "profile" then Some(Profile)
    else if key == "dynamodb_table" then Some(DynamoDBTable)
    else None
  }

  /** The Go struct `BackendConfig`; its zero value has every field empty. */
  datatype BackendConfig = BackendConfig(
    bucket: string, key: string, region: string, profile: string, dynamoDBTable: string)
  {
    function Get(f: Field): string {
      match f
      case Bucket => bucket
      case Key => key
      case Region => region
      case Profile => profile
      case DynamoDBTable => dynamoDBTable
    }

    /** The record with field `f` set to `v` and every other field as it was. */
    function With(f: Field, v: string): (c: BackendConfig)
      ensures c.Get(f) == v
      ensures forall g :: g != f ==> c.Get(g) == Get(g)
    {
      match f
      case Bucket => this.(bucket := v)
      case Key => this.(key := v)
      case Region => this.(region := v)
      case Profile => this.(profile := v)
      case DynamoDBTable => this.(dynamoDBTable := v)
    }
  }

  const Zero := BackendConfig("", "", "", "", "")

  /** A value as stored: white space trimmed first, then every `"` at either end. */
  function CleanValue(raw: string): (r: string)
    ensures |r| <= |raw|
    ensures r == [] <==> AllCut(TrimSpace(raw), IsQuote)
    ensures r != [] ==> !IsQuote(r[0]) && !IsQuote(r[|r| - 1])
  {
    Trim(TrimSpace(raw), IsQuote)
  }

  /**
   What one line assigns, if anything: the field its trimmed key names and the
   cleaned value. A line without `=` and a line whose key is not recognised
   assign nothing.
   */
  function ParseLine(line: string): (r: Option<(Field, string)>)
    ensures '=' !in line ==> r == None
  {
    match SplitFirst(line, '=')
    case None => None
    case Some((k, v)) =>
      match FieldOf(TrimSpace(k))
      case None => None
      case Some(f) => Some((f, CleanValue(v)))
  }

  /** One iteration of the reader's loop. */
  function ApplyLine(c: BackendConfig, line: string): (d: BackendConfig)
    ensures '=' !in line ==> d == c
    ensures forall f :: d.Get(f) != c.Get(f) ==> ParseLine(line) == Some((f, d.Get(f)))
  {
    match ParseLine(line)
    case None => c
    case Some((f, v)) => c.With(f, v)
  }

  /** The reader's loop from a given record: lines applied first to last. */
  function ParseFrom(c: BackendConfig, lines: seq<string>): BackendConfig
  {
    if lines == [] then c
    else ApplyLine(ParseFrom(c, lines[..|lines| - 1]), lines[|lines| - 1])
  }

  /** The record `readBackendConfig` returns for a file of these lines. */
  function ParseLines(lines: seq<string>): BackendConfig {
    ParseFrom(Zero, lines)
  }

  /** `readBackendConfig`, from the scanned lines on. */
  method ReadBackendConfig(lines: seq<string>) returns (config: BackendConfig)
    ensures config == ParseLines(lines)
  {
    config := Zero;
    var i := 0;
    while i < |lines|
      invariant 0 <= i <= |lines|
      invariant config == ParseLines(lines[..i])
    {
      config := ReadLine(config, lines[i]);
      assert lines[..i + 1][..i] == lines[..i];
      i := i + 1;
    }
    assert lines[..i] == lines;
  }

  /** The body of the reader's loop: split, trim, and the switch on the key. */
  method ReadLine(config: BackendConfig, line: string) returns (next: BackendConfig)
    ensures next == ApplyLine(config, line)
  {
    next := config;
    var parts := SplitFirst(line, '=');
    if parts.Some? {
      var key := TrimSpace(parts.value.0);
      var value := TrimSpace(parts.value.1);
      ghost var parsed := ParseLine(line);
      assert parsed == if FieldOf(key).None? then None else Some((FieldOf(key).value, Trim(value, IsQuote)));
      if key == "bucket" {
        next := next.(bucket := Trim(value, IsQuote));
        assert FieldOf(key) == Some(Bucket);
      } else if key == "key" {
        next := next.(key := Trim(value, IsQuote));
        assert FieldOf(key) == Some(Key);
      } else if key == "region" {
        next := next.(region := Trim(value, IsQuote));
        assert FieldOf(key) == Some(Region);
      } else if key == "profile" {
        next := next.(profile := Trim(value, IsQuote));
        assert FieldOf(key) == Some(Profile);
      } else if key == "dynamodb_table" {
        next := next.(dynamoDBTable := Trim(value, IsQuote));
        assert FieldOf(key) == Some(DynamoDBTable);
      } else {
        assert FieldOf(key) == None;
      }
    }
  }

  // ---- one line ----

  /**
   A line `k=v` whose trimmed key names a field sets exactly that field, to the
   cleaned text after the FIRST `=`, so a value that itself holds `=` is kept whole.
   */
  lemma RecognizedLine(c: BackendConfig, k: string, v: string, f: Field)
    requires '=' !in k && TrimSpace(k) == FieldName(f)
    ensures ApplyLine(c, k + "=" + v) == c.With(f, CleanValue(v))
    ensures ApplyLine(c, k + "=" + v).Get(f) == CleanValue(v)
    ensures forall g :: g != f ==> ApplyLine(c, k + "=" + v).Get(g) == c.Get(g)
  {
    SplitFirstOfJoin(k, '=', v);
  }

  /** A line `k=v` whose trimmed key is not one of the five (case matters) changes nothing. */
  lemma UnknownKeyLine(c: BackendConfig, k: string, v: string)
    requires '=' !in k && FieldOf(TrimSpace(k)) == None
    ensures ApplyLine(c, k + "=" + v) == c
  {
    SplitFirstOfJoin(k, '=', v);
  }

  /**
   A value keeps what is between its quote runs, spaces included: white space
   around it goes, then the quote runs at either end, and nothing else. Either
   quote run may be empty, so an unquoted value and a value quoted on one side
   only are covered too.
   */
  lemma QuotedValue(lead: string, open: string, inner: string, close: string, trail: string)
    requires AllCut(lead, IsSpace) && AllCut(trail, IsSpace)
    requires AllCut(open, IsQuote) && AllCut(close, IsQuote)
    requires var q := open + inner + close; q == [] || (!IsSpace(q[0]) && !IsSpace(q[|q| - 1]))
    requires inner == [] || (!IsQuote(inner[0]) && !IsQuote(inner[|inner| - 1]))
    ensures CleanValue(lead + open + inner + close + trail) == inner
  {
    var quoted := open + inner + close;
    assert lead + open + inner + close + trail == lead + quoted + trail;
    TrimPadded(lead, quoted, trail, IsSpace);
    TrimPadded(open, inner, close, IsQuote);
  }

  /** A value without quotes is stored with only its surrounding white space removed. */
  lemma UnquotedValue(lead: string, inner: string, trail: string)
    requires AllCut(lead, IsSpace) && AllCut(trail, IsSpace)
    requires inner == [] || (!IsSpace(inner[0]) && !IsSpace(inner[|inner| - 1]))
    requires inner == [] || (!IsQuote(inner[0]) && !IsQuote(inner[|inner| - 1]))
    ensures CleanValue(lead + inner + trail) == inner
  {
    var empty: string := [];
    assert empty + inner + empty == inner;
    assert lead + empty + inner + empty + trail == lead + inner + trail;
    QuotedValue(lead, empty, inner, empty, trail);
  }

  // ---- the whole file ----

  /** Reading `a` then `b` is reading `a + b`. */
  lemma {:induction false} ParseFromAppend(c: BackendConfig, a: seq<string>, b: seq<string>)
    ensures ParseFrom(c, a + b) == ParseFrom(ParseFrom(c, a), b)
  {
    if b == [] {
      assert a + b == a;
    } else {
      assert (a + b)[..|a + b| - 1] == a + b[..|b| - 1];
      assert (a + b)[|a + b| - 1] == b[|b| - 1];
      ParseFromAppend(c, a, b[..|b| - 1]);
    }
  }

  /** A line that assigns nothing (no `=`, or an unknown key) can be dropped from the file. */
  lemma IgnoredLine(a: seq<string>, line: string, b: seq<string>)
    requires ParseLine(line) == None
    ensures ParseLines(a + [line] + b) == ParseLines(a + b)
  {
    ParseFromAppend(Zero, a + [line], b);
    ParseFromAppend(Zero, a, [line]);
    assert ([line])[..0] == [];
    ParseFromAppend(Zero, a, b);
  }

  /** The line assigns field `f`. */
  predicate Assigns(line: string, f: Field) {
    ParseLine(line).Some? && ParseLine(line).value.0 == f
  }

  /** After one line, field `f` holds that line's value if it assigns `f`, else what it held. */
  lemma ApplyLineGet(c: BackendConfig, line: string, f: Field)
    ensures ApplyLine(c, line).Get(f) == if Assigns(line, f) then ParseLine(line).value.1 else c.Get(f)
  {
    match ParseLine(line)
    case None =>
    case Some((g, v)) =>
  }

  /**
   Each field of the result is the value of the LAST line that assigns it, or
   empty when no line does.
   */
  lemma {:induction false} LastAssignmentWins(lines: seq<string>, f: Field)
    ensures (forall i :: 0 <= i < |lines| ==> !Assigns(lines[i], f)) ==> ParseLines(lines).Get(f) == ""
    ensures forall i :: 0 <= i < |lines| && Assigns(lines[i], f)
                        && (forall j :: i < j < |lines| ==> !Assigns(lines[j], f))
                        ==> ParseLines(lines).Get(f) == ParseLine(lines[i]).value.1
  {
    if lines != [] {
      var init := lines[..|lines| - 1];
      var last := lines[|lines| - 1];
      LastAssignmentWins(init, f);
      ApplyLineGet(ParseLines(init), last, f);
      assert ParseLines(lines) == ApplyLine(ParseLines(init), last);
      assert forall i :: 0 <= i < |init| ==> init[i] == lines[i];
      forall i | 0 <= i < |lines| && Assigns(lines[i], f) && (forall j :: i < j < |lines| ==> !Assigns(lines[j], f))
        ensures ParseLines(lines).Get(f) == ParseLine(lines[i]).value.1
      {
        if i < |lines| - 1 {
          assert !Assigns(last, f);
          assert forall j :: i < j < |init| ==> !Assigns(init[j], f);
        }
      }
    }
  }

  /** Every key is plain: non-empty, no `=`, no white space at either end. */
  lemma FieldNamePlain(f: Field)
    ensures FieldName(f) != [] && '=' !in FieldName(f)
    ensures !IsSpace(FieldName(f)[0]) && !IsSpace(FieldName(f)[|FieldName(f)| - 1])
  {
    match f
    case Bucket => case Key => case Region => case Profile => case DynamoDBTable =>
  }

  /** Where such a line splits: the key with its trailing space, and the quoted value. */
  lemma SettingLineShape(name: string, x: char)
    ensures name + " = \"" + [x] + "\"" == (name + " ") + "=" + (" \"" + [x] + "\"")
  {
  }

  /**
   A line `name = "x"` of the usual shape sets the field `name` to `x`. The value
   is one symbolic character so that the trims need not unroll over literal text,
   which is what keeps `ExampleFile` cheap.
   */
  lemma SettingLine(c: BackendConfig, f: Field, x: char)
    requires x != '"'
    ensures ApplyLine(c, SettingLineOf(f, x)) == c.With(f, [x])
  {
    SettingLineParts(f, x);
    RecognizedLine(c, FieldName(f) + " ", " \"" + [x] + "\"", f);
  }

  /** How such a line reads: the key trims to the field's name, the value cleans to `x`. */
  lemma SettingLineParts(f: Field, x: char)
    requires x != '"'
    ensures SettingLineOf(f, x) == (FieldName(f) + " ") + "=" + (" \"" + [x] + "\"")
    ensures '=' !in FieldName(f) + " " && TrimSpace(FieldName(f) + " ") == FieldName(f)
    ensures CleanValue(" \"" + [x] + "\"") == [x]
  {
    var name := FieldName(f);
    SettingLineShape(name, x);
    FieldNamePlain(f);
    var empty: string := [];
    var k := name + " ";
    assert '=' !in k;
    assert k == empty + name + " ";
    TrimPadded(empty, name, " ", IsSpace);
    var v := " \"" + [x] + "\"";
    assert v == " " + "\"" + [x] + "\"" + empty;
    QuotedValue(" ", "\"", [x], "\"", empty);
  }

  /** The line `name = "x"` that sets field `f` to the one-character value `x`. */
  function SettingLineOf(f: Field, x: char): string {
    FieldName(f) + " = \"" + [x] + "\""
  }

  /** Reading one more line is one more step of the loop. */
  lemma ParseFromSnoc(c: BackendConfig, lines: seq<string>, line: string)
    ensures ParseFrom(c, lines + [line]) == ApplyLine(ParseFrom(c, lines), line)
  {
    assert (lines + [line])[..|lines|] == lines;
  }

  /** The example file, written with `SettingLineOf`. */
  lemma ExampleLines()
    ensures [SettingLineOf(Bucket, 'b')] + [SettingLineOf(Key, 'k')] + [SettingLineOf(Region, 'r')]
            + [SettingLineOf(Profile, 'p')] + [SettingLineOf(DynamoDBTable, 't')]
         == ["bucket = \"b\"", "key = \"k\"", "region = \"r\"", "profile = \"p\"", "dynamodb_table = \"t\""]
  {
    assert SettingLineOf(Bucket, 'b') == "bucket = \"b\"";
    assert SettingLineOf(Key, 'k') == "key = \"k\"";
    assert SettingLineOf(Region, 'r') == "region = \"r\"";
    assert SettingLineOf(Profile, 'p') == "profile = \"p\"";
    assert SettingLineOf(DynamoDBTable, 't') == "dynamodb_table = \"t\"";
  }

  /** A typical `backend.tfvars`: every field recognised, quotes stripped. */
  lemma ExampleFile()
    ensures ParseLines([
      "bucket = \"b\"", "key = \"k\"", "region = \"r\"", "profile = \"p\"", "dynamodb_table = \"t\""])
      == BackendConfig("b", "k", "r", "p", "t")
  {
    ExampleLines();
    var l0: seq<string> := [];
    ParseFromSnoc(Zero, l0, SettingLineOf(Bucket, 'b'));
    SettingLine(Zero, Bucket, 'b');
    var l1 := l0 + [SettingLineOf(Bucket, 'b')];
    var c1 := Zero.With(Bucket, "b");
    ParseFromSnoc(Zero, l1, SettingLineOf(Key, 'k'));
    SettingLine(c1, Key, 'k');
    var l2 := l1 + [SettingLineOf(Key, 'k')];
    var c2 := c1.With(Key, "k");
    ParseFromSnoc(Zero, l2, SettingLineOf(Region, 'r'));
    SettingLine(c2, Region, 'r');
    var l3 := l2 + [SettingLineOf(Region, 'r')];
    var c3 := c2.With(Region, "r");
    ParseFromSnoc(Zero, l3, SettingLineOf(Profile, 'p'));
    SettingLine(c3, Profile, 'p');
    var l4 := l3 + [SettingLineOf(Profile, 'p')];
    var c4 := c3.With(Profile, "p");
    ParseFromSnoc(Zero, l4, SettingLineOf(DynamoDBTable, 't'));
    SettingLine(c4, DynamoDBTable, 't');
    assert l0 + [SettingLineOf(Bucket, 'b')] == [SettingLineOf(Bucket, 'b')];
  }
}
