/** One run's staging directory: the commit plan and its file form, the READY marker, and what the
    journal on disk says about a run. */
module Staging {
  import opened Strings
  import opened Json
  import JsonProofs
  import opened Results
  import opened Disks

  datatype CommitStep = CommitStep(stagedPath: Path, livePath: Path, tag: string)

  // ------------------------------------------------------------ paths as text

  predicate ValidPath(p: Path) {
    p != [] && forall i :: 0 <= i < |p| ==> p[i] != "" && Free('/', p[i])
  }

  /** `str(path)`. */
  function PathText(p: Path): string
    requires p != []
  {
    Join('/', p)
  }

  /** `Path(text)`, for text that needs no normalising. */
  function PathFrom(text: string): (p: Path)
    ensures p != []
  {
    Split('/', text)
  }

  lemma PathBack(p: Path)
    requires ValidPath(p)
    ensures PathFrom(PathText(p)) == p
  {
    SplitJoin('/', p);
  }

  // ------------------------------------------------------------ the plan file

  predicate ValidStep(s: CommitStep) { ValidPath(s.stagedPath) && ValidPath(s.livePath) }

  predicate ValidSteps(steps: seq<CommitStep>) {
    forall i :: 0 <= i < |steps| ==> ValidStep(steps[i])
  }

  /** `CommitStep.to_dict`. */
  function StepJson(s: CommitStep): Json
    requires ValidStep(s)
  {
    Obj(Field("staged_path", Str(PathText(s.stagedPath)),
        Field("live_path", Str(PathText(s.livePath)),
        Field("label", Str(s.tag), NoField))))
  }

  function StepItems(steps: seq<CommitStep>): Items
    requires ValidSteps(steps)
  {
    if steps == [] then NoItem else Item(StepJson(steps[0]), StepItems(steps[1..]))
  }

  /** The bytes of commit_plan.json. */
  function PlanText(steps: seq<CommitStep>): string
    requires ValidSteps(steps)
  {
    Pretty(Obj(Field("steps", Arr(StepItems(steps)), NoField)))
  }

  /** `CommitStep.from_dict`. */
  function StepFrom(v: Json): Option<CommitStep> {
    if !v.Obj? || !({"staged_path", "live_path", "label"} <= Keys(v.fields)) then None
    else
      var staged, live, tag := Final(v.fields, "staged_path"), Final(v.fields, "live_path"), Final(v.fields, "label");
      if !staged.Str? || !live.Str? || !tag.Str? then None
      else Some(CommitStep(PathFrom(staged.s), PathFrom(live.s), tag.s))
  }

  function StepsFrom(items: Items): Option<seq<CommitStep>> {
    match items
    case NoItem => Some([])
    case Item(head, tail) =>
      var s, rest := StepFrom(head), StepsFrom(tail);
      if s.None? || rest.None? then None else Some([s.value] + rest.value)
  }

  /** `load_commit_plan`; a plan without a "steps" member is an empty plan, and so is one whose
      "steps" is an empty object or text. */
  function LoadPlan(text: string): Option<seq<CommitStep>> {
    var v := Load(text);
    if v.NotJson? || !v.value.Obj? then None
    else if "steps" !in Keys(v.value.fields) then Some([])
    else
      var steps := Final(v.value.fields, "steps");
      match steps
      case Arr(items) => StepsFrom(items)
      case Obj(fields) => if fields.NoField? then Some([]) else None
      case Str(s) => if s == "" then Some([]) else None
      case _ => None
  }

  /** The value is an object that says where from, where to, and a label. */
  ghost predicate SaysStep(v: Json, s: CommitStep) {
    && v.Obj? && {"staged_path", "live_path", "label"} <= Keys(v.fields)
    && Final(v.fields, "label") == Str(s.tag)
    && Final(v.fields, "staged_path").Str? && PathFrom(Final(v.fields, "staged_path").s) == s.stagedPath
    && Final(v.fields, "live_path").Str? && PathFrom(Final(v.fields, "live_path").s) == s.livePath
  }

  ghost predicate SaysSteps(items: Items, steps: seq<CommitStep>) {
    match items
    case NoItem => steps == []
    case Item(head, tail) => steps != [] && SaysStep(head, steps[0]) && SaysSteps(tail, steps[1..])
  }

  /** The text is a JSON object whose "steps" are these; there are none if that member is missing or
      empty in another way. */
  ghost predicate HoldsPlan(text: string, steps: seq<CommitStep>) {
    && ObjectIn(text).Some?
    && var f := ObjectIn(text).value;
       || ("steps" !in Keys(f) && steps == [])
       || ("steps" in Keys(f) && Final(f, "steps") in {Obj(NoField), Str("")} && steps == [])
       || ("steps" in Keys(f) && Final(f, "steps").Arr? && SaysSteps(Final(f, "steps").items, steps))
  }

  lemma StepExactly(v: Json, s: CommitStep)
    ensures StepFrom(v) == Some(s) <==> SaysStep(v, s)
  {
    hide PathFrom;
  }

  lemma {:induction false} StepsExactly(items: Items, steps: seq<CommitStep>)
    ensures StepsFrom(items) == Some(steps) <==> SaysSteps(items, steps)
  {
    hide StepFrom, SaysStep;
    if items.Item? {
      var s := StepFrom(items.head);
      if s.Some? { StepExactly(items.head, s.value); }
      if steps != [] {
        StepExactly(items.head, steps[0]);
        StepsExactly(items.tail, steps[1..]);
        assert steps == [steps[0]] + steps[1..];
      }
    }
  }

  /** A plan file loads as these steps exactly when it holds them. */
  lemma {:induction false} PlanLoadsExactly(text: string, steps: seq<CommitStep>)
    ensures LoadPlan(text) == Some(steps) <==> HoldsPlan(text, steps)
  {
    hide Load, StepsFrom, SaysSteps, Final;
    if ObjectIn(text).Some? && "steps" in Keys(ObjectIn(text).value) && Final(ObjectIn(text).value, "steps").Arr? {
      StepsExactly(Final(ObjectIn(text).value, "steps").items, steps);
    }
  }

  lemma StepBack(s: CommitStep)
    requires ValidStep(s)
    ensures StepFrom(Normalize(StepJson(s))) == Some(s)
  {
    hide PathText, PathFrom, NormalizeFields;
    PathBack(s.stagedPath);
    PathBack(s.livePath);
    var a, b, c := Str(PathText(s.stagedPath)), Str(PathText(s.livePath)), Str(s.tag);
    ThreeFields("staged_path", a, "live_path", b, "label", c);
    var g := NormalizeFields(StepJson(s).fields);
    NormalizeFieldsOrdered(StepJson(s).fields);
    OrderedIsUnique(g);
    FinalIsLookup(g, "staged_path");
    FinalIsLookup(g, "live_path");
    FinalIsLookup(g, "label");
  }

  lemma ThreeFields(a: string, x: Json, b: string, y: Json, c: string, z: Json)
    requires a != b && a != c && b != c
    ensures var f := Field(a, x, Field(b, y, Field(c, z, NoField)));
            && UniqueKeys(f) && Keys(f) == {a, b, c}
            && Lookup(f, a) == x && Lookup(f, b) == y && Lookup(f, c) == z
  {
    var h := Field(c, z, NoField);
    var g := Field(b, y, h);
    assert Keys(h) == {c} && UniqueKeys(NoField) && UniqueKeys(h) && Lookup(h, c) == z;
    assert Keys(g) == {b, c} && UniqueKeys(g) && Lookup(g, b) == y && Lookup(g, c) == z;
  }

  lemma {:induction false} StepsBack(steps: seq<CommitStep>)
    requires ValidSteps(steps)
    ensures StepsFrom(NormalizeItems(StepItems(steps))) == Some(steps)
  {
    hide StepFrom, StepJson, ValidStep;
    if steps != [] {
      StepBack(steps[0]);
      StepsBack(steps[1..]);
      assert steps == [steps[0]] + steps[1..];
    }
  }

  /** The plan that was written is the plan that is executed, in the same order. */
  lemma {:induction false} PlanRoundTrip(steps: seq<CommitStep>)
    requires ValidSteps(steps)
    ensures LoadPlan(PlanText(steps)) == Some(steps)
  {
    hide Pretty, Load, StepItems, StepsFrom;
    var items := StepItems(steps);
    var v := Obj(Field("steps", Arr(items), NoField));
    JsonProofs.LoadDumped(v);
    OneField("steps", Arr(items));
    StepsBack(steps);
  }

  lemma OneField(k: string, x: Json)
    ensures Normalize(Obj(Field(k, x, NoField))) == Obj(Field(k, Normalize(x), NoField))
    ensures Keys(Field(k, Normalize(x), NoField)) == {k}
    ensures Final(Field(k, Normalize(x), NoField), k) == Normalize(x)
  {
    assert NormalizeFields(Field(k, x, NoField)) == Insert(k, Normalize(x), NoField);
    assert Keys(NoField) == {};
  }

  // ------------------------------------------------------------ the journal

  function PlanPath(run: string): Path { RunRoot(run) + ["commit_plan.json"] }

  function ReadyPath(run: string): Path { RunRoot(run) + ["READY"] }

  const READY_TEXT := "READY\n"

  /** `is_ready`. */
  predicate Ready(fs: FS, run: string) { ReadyPath(run) in fs.files }

  function PlanOn(fs: FS, run: string): Option<seq<CommitStep>> {
    if PlanPath(run) in fs.files then LoadPlan(fs.files[PlanPath(run)]) else None
  }

  /** The first step whose staged file is still there, or the number of steps. */
  function Progress(steps: seq<CommitStep>, files: map<Path, string>): (k: nat)
    ensures k <= |steps|
    ensures forall i :: 0 <= i < k ==> steps[i].stagedPath !in files
    ensures k < |steps| ==> steps[k].stagedPath in files
  {
    if steps == [] || steps[0].stagedPath in files then 0
    else
      var n := Progress(steps[1..], files);
      assert forall i :: 1 <= i < n + 1 ==> steps[i] == steps[1..][i - 1];
      n + 1
  }

  /** A plan the service writes: it moves distinct staged files of its own run, never its own plan
      or marker, onto distinct live files. */
  ghost predicate SanePlan(run: string, steps: seq<CommitStep>) {
    && (forall i :: 0 <= i < |steps| ==> Movable(run, steps[i]))
    && (forall i, j :: 0 <= i < j < |steps| ==> steps[i].stagedPath != steps[j].stagedPath)
    && (forall i, j :: 0 <= i < j < |steps| ==> steps[i].livePath != steps[j].livePath)
  }

  predicate Movable(run: string, s: CommitStep) {
    && InRun(s.stagedPath, run)
    && s.stagedPath != PlanPath(run)
    && s.stagedPath != ReadyPath(run)
    && IsLive(s.livePath)
  }

  /** Every committable run directory holds a sane plan. */
  ghost predicate SaneJournal(fs: FS) {
    forall run :: run in fs.runs && Ready(fs, run) && PlanOn(fs, run).Some? ==> SanePlan(run, PlanOn(fs, run).value)
  }

  lemma JournalPaths(run: string)
    ensures InRun(PlanPath(run), run) && InRun(ReadyPath(run), run) && PlanPath(run) != ReadyPath(run)
    ensures forall other :: PlanPath(other) == PlanPath(run) ==> other == run
    ensures forall other :: ReadyPath(other) == ReadyPath(run) ==> other == run
    ensures forall other :: PlanPath(other) != ReadyPath(run)
  {
    assert PlanPath(run)[3] != ReadyPath(run)[3];
    forall other ensures PlanPath(other) == PlanPath(run) ==> other == run { assert PlanPath(other)[2] == other; }
    forall other ensures ReadyPath(other) == ReadyPath(run) ==> other == run { assert ReadyPath(other)[2] == other; }
    forall other ensures PlanPath(other) != ReadyPath(run) { assert PlanPath(other)[3] == "commit_plan.json"; }
  }
}
