/**
 * The classification of a sample against the dbGaP telemetry report parsed with
 * ElementTree: the report's Sample elements naming the alias, and its admin
 * BioProject elements, decide between "not registered", "study not registered",
 * "ambiguous" and the sample's registration details.
 */
module DgbapTelemetryReport {
  import opened Outcome
  import opened Python
  import opened ElementTree

  /** `[x.attrib for x in elements if x.attrib['submitted_sample_id'] == alias]`:
      an element without the attribute raises KeyError. */
  function MatchedSamples(elements: seq<Element>, alias: string): Result<seq<Dict>> {
    if elements == [] then Ok([])
    else
      var id :- Lookup(elements[0].attrib, "submitted_sample_id");
      var rest :- MatchedSamples(elements[1..], alias);
      Ok(if id == Str(alias) then [elements[0].attrib] + rest else rest)
  }

  /** `[x.attrib['bp_id'] for x in elements if x.attrib['bp_type'] == 'admin']`. */
  function AdminBioProjects(elements: seq<Element>): Result<seq<Value>> {
    if elements == [] then Ok([])
    else
      var kind :- Lookup(elements[0].attrib, "bp_type");
      if kind == Str("admin") then
        var id :- Lookup(elements[0].attrib, "bp_id");
        var rest :- AdminBioProjects(elements[1..]);
        Ok([id] + rest)
      else AdminBioProjects(elements[1..])
  }

  /** Whether an element's attributes name the alias. */
  predicate NamesAlias(x: Element, alias: string) {
    Get(x.attrib, "submitted_sample_id") == Some(Str(alias))
  }

  /** The samples can be formed iff every element carries a submitted sample id. */
  lemma {:induction false} MatchedSamplesDefined(elements: seq<Element>, alias: string)
    ensures MatchedSamples(elements, alias).Ok? <==>
              forall i :: 0 <= i < |elements| ==> HasKey(elements[i].attrib, "submitted_sample_id")
  {
    if elements != [] {
      var rest := elements[1..];
      MatchedSamplesDefined(rest, alias);
      assert forall i :: 0 <= i < |rest| ==> rest[i] == elements[i + 1];
    }
  }

  /** The samples kept are the attribute dicts naming the alias: each kept dict
      names it, and every element naming it is kept. */
  lemma {:induction false} MatchedSamplesKept(elements: seq<Element>, alias: string)
    requires MatchedSamples(elements, alias).Ok?
    ensures forall d :: d in MatchedSamples(elements, alias).value ==> Get(d, "submitted_sample_id") == Some(Str(alias))
    ensures forall i :: 0 <= i < |elements| && NamesAlias(elements[i], alias) ==>
                          elements[i].attrib in MatchedSamples(elements, alias).value
  {
    if elements != [] {
      var rest := elements[1..];
      MatchedSamplesKept(rest, alias);
      assert forall i :: 0 <= i < |rest| ==> rest[i] == elements[i + 1];
    }
  }

  /** None is kept iff no element names the alias, and more than one iff two
      elements do. */
  lemma {:induction false} MatchedSamplesCount(elements: seq<Element>, alias: string)
    requires MatchedSamples(elements, alias).Ok?
    ensures MatchedSamples(elements, alias).value == [] <==>
              forall i :: 0 <= i < |elements| ==> !NamesAlias(elements[i], alias)
    ensures |MatchedSamples(elements, alias).value| > 1 <==>
              exists i, j :: 0 <= i < j < |elements| && NamesAlias(elements[i], alias) && NamesAlias(elements[j], alias)
  {
    if elements != [] {
      var rest := elements[1..];
      MatchedSamplesCount(rest, alias);
      assert forall i :: 0 <= i < |rest| ==> rest[i] == elements[i + 1];
      var kept := MatchedSamples(elements, alias).value;
      var restKept := MatchedSamples(rest, alias).value;
      if |kept| > 1 {
        if NamesAlias(elements[0], alias) {
          var j :| 0 <= j < |rest| && NamesAlias(rest[j], alias);
          assert NamesAlias(elements[j + 1], alias);
        } else {
          var i, j :| 0 <= i < j < |rest| && NamesAlias(rest[i], alias) && NamesAlias(rest[j], alias);
          assert NamesAlias(elements[i + 1], alias) && NamesAlias(elements[j + 1], alias);
        }
      }
      if exists i, j :: 0 <= i < j < |elements| && NamesAlias(elements[i], alias) && NamesAlias(elements[j], alias) {
        var i, j :| 0 <= i < j < |elements| && NamesAlias(elements[i], alias) && NamesAlias(elements[j], alias);
        assert NamesAlias(rest[j - 1], alias);
        if i > 0 {
          assert NamesAlias(rest[i - 1], alias);
        }
      }
    }
  }

  /** The bio projects are the ids of the admin BioProject elements: each is the id
      of an admin element, and every admin element's id is among them. */
  lemma {:induction false} AdminBioProjectsMeans(elements: seq<Element>)
    ensures AdminBioProjects(elements).Ok? ==>
              (forall v :: v in AdminBioProjects(elements).value ==>
                 exists i :: 0 <= i < |elements| && Get(elements[i].attrib, "bp_type") == Some(Str("admin"))
                             && Get(elements[i].attrib, "bp_id") == Some(v))
              && (forall i :: (0 <= i < |elements| && Get(elements[i].attrib, "bp_type") == Some(Str("admin")))
                                ==> GetOr(elements[i].attrib, "bp_id", Null) in AdminBioProjects(elements).value)
    ensures AdminBioProjects(elements) == Ok([]) <==>
              forall i :: 0 <= i < |elements| ==> HasKey(elements[i].attrib, "bp_type")
                                                  && Get(elements[i].attrib, "bp_type") != Some(Str("admin"))
  {
    if elements != [] {
      var rest := elements[1..];
      AdminBioProjectsMeans(rest);
      assert forall i :: 0 <= i < |rest| ==> rest[i] == elements[i + 1];
      if AdminBioProjects(elements).Ok? {
        forall v | v in AdminBioProjects(elements).value
          ensures exists i :: 0 <= i < |elements| && Get(elements[i].attrib, "bp_type") == Some(Str("admin"))
                              && Get(elements[i].attrib, "bp_id") == Some(v)
        {
          if v !in AdminBioProjects(rest).value {
            assert Get(elements[0].attrib, "bp_id") == Some(v);
          } else {
            var i :| 0 <= i < |rest| && Get(rest[i].attrib, "bp_type") == Some(Str("admin"))
                     && Get(rest[i].attrib, "bp_id") == Some(v);
            assert elements[i + 1] == rest[i];
          }
        }
      }
    }
  }

  /** `extract_sample_level_info` on the parsed report, with `self.alias` read as
      the alias argument: both lists are formed first, then the classification checks run in the
      order written. */
  function SampleLevelInfo(root: Element, alias: string): Result<Value> {
    var samples :- MatchedSamples(Iter(root, "Sample"), alias);
    var bioProjects :- AdminBioProjects(Iter(root, "BioProject"));
    if samples == [] then Err(SampleNotRegistered)
    else if bioProjects == [] then Err(StudyNotRegistered)
    else if |samples| > 1 then Err(Raised("Could not find specific sample in report"))
    else
      var study :- FirstChild(root);
      Ok(Obj([("study", Obj(study.attrib)), ("bio_project", bioProjects[0]), ("dbgap_sample_info", Obj(samples[0]))]))
  }

  /** The outcomes in the order the classification checks make them, once both lists are formed:
      no sample, then no admin bio project, then more than one sample; otherwise
      the first child's attributes, the first admin bio project and the sample. */
  lemma SampleLevelInfoOrder(root: Element, alias: string)
    requires MatchedSamples(Iter(root, "Sample"), alias).Ok?
    requires AdminBioProjects(Iter(root, "BioProject")).Ok?
    ensures var samples := MatchedSamples(Iter(root, "Sample"), alias).value;
            var bioProjects := AdminBioProjects(Iter(root, "BioProject")).value;
            && (samples == [] ==> SampleLevelInfo(root, alias) == Err(SampleNotRegistered))
            && (samples != [] && bioProjects == [] ==> SampleLevelInfo(root, alias) == Err(StudyNotRegistered))
            && (|samples| > 1 && bioProjects != [] ==>
                  SampleLevelInfo(root, alias) == Err(Raised("Could not find specific sample in report")))
            && (SampleLevelInfo(root, alias).Ok? <==> |samples| == 1 && bioProjects != [] && root.children != [])
            && (SampleLevelInfo(root, alias).Ok? ==>
                  SampleLevelInfo(root, alias).value
                    == Obj([("study", Obj(root.children[0].attrib)), ("bio_project", bioProjects[0]),
                            ("dbgap_sample_info", Obj(samples[0]))]))
  {
  }

  /** A unique match is the alias's own Sample element: its attributes name the
      alias and come from a Sample element of the report. */
  lemma SampleLevelInfoNamesAlias(root: Element, alias: string)
    requires SampleLevelInfo(root, alias).Ok?
    ensures var info := SampleLevelInfo(root, alias).value.fields[2].1;
            info.Obj? && Get(info.fields, "submitted_sample_id") == Some(Str(alias))
            && exists x :: x in Iter(root, "Sample") && x.attrib == info.fields && x.tag == "Sample"
  {
    var elements := Iter(root, "Sample");
    MatchedSamplesKept(elements, alias);
    IterHasTag(root, "Sample");
    var samples := MatchedSamples(elements, alias).value;
    MatchedSampleFrom(elements, alias, samples[0]);
  }

  /** Every kept dict is the attribute dict of some element. */
  lemma {:induction false} MatchedSampleFrom(elements: seq<Element>, alias: string, d: Dict)
    requires MatchedSamples(elements, alias).Ok? && d in MatchedSamples(elements, alias).value
    ensures exists x :: x in elements && x.attrib == d
  {
    if d != elements[0].attrib {
      MatchedSampleFrom(elements[1..], alias, d);
      var x :| x in elements[1..] && x.attrib == d;
      assert x in elements;
    }
  }

  /** `extract_sample_level_info` as written, once a call reaches its body:
      `call_telemetry_report` is defined at line 15 only as a method of the class,
      and a method body does not see class attributes, so the bare name at line 31
      is unbound and NameError is raised before the report is read.  The instance
      call with an alias raises TypeError (two positional arguments for one)
      before the body runs; that call is not modelled. */
  function SampleLevelInfoAsWritten(root: Element, alias: string): (r: Result<Value>)
    ensures r.Err?
  {
    Err(NameError("call_telemetry_report"))
  }

  /** A report with one registered sample for the alias and an admin bio project:
      the classification accepts it, the function as written raises. */
  lemma AsWrittenRejectsRegisteredSample()
    ensures var sample := Element("Sample", [("submitted_sample_id", Str("S1"))], []);
            var project := Element("BioProject", [("bp_type", Str("admin")), ("bp_id", Str("PRJ1"))], []);
            var root := Element("DbGap", [], [Element("Study", [("accession", Str("phs1"))], [sample, project])]);
            SampleLevelInfo(root, "S1").Ok? && SampleLevelInfoAsWritten(root, "S1").Err?
  {
    var sample := Element("Sample", [("submitted_sample_id", Str("S1"))], []);
    var project := Element("BioProject", [("bp_type", Str("admin")), ("bp_id", Str("PRJ1"))], []);
    var study := Element("Study", [("accession", Str("phs1"))], [sample, project]);
    var root := Element("DbGap", [], [study]);
    assert Iter(sample, "Sample") == [sample];
    assert Iter(project, "Sample") == [];
    assert IterChildren(study, 2, "Sample") == [];
    assert IterChildren(study, 1, "Sample") == [];
    assert Iter(study, "Sample") == [sample];
    assert IterChildren(root, 1, "Sample") == [];
    assert Iter(root, "Sample") == [sample];
    assert Iter(sample, "BioProject") == [];
    assert Iter(project, "BioProject") == [project];
    assert IterChildren(study, 2, "BioProject") == [];
    assert IterChildren(study, 1, "BioProject") == [project];
    assert Iter(study, "BioProject") == [project];
    assert IterChildren(root, 1, "BioProject") == [];
    assert Iter(root, "BioProject") == [project];
  }
}
