/**
 * The decision logic of the git-frameworker scaffolding tool: collecting one
 * answer per configured question, splitting the answers into partials and
 * fulls, building the template directory key, turning that selection into a
 * sequence of directory copies, and choosing between the config-driven build
 * and the verbatim copy of the staged repository.
 *
 * The interactive prompter is an input (one response per question) and the
 * recursive directory copy is an emitted plan entry.
 */
module Frameworker {
  import opened Strings
  import opened Seqs

  // ---------------------------------------------------------------------------
  // Data model
  // ---------------------------------------------------------------------------

  /** The `type` of a question in `framework.json`. */
  datatype Kind = Input | List | Confirm

  /** A prompter response: a string for `input` and `list`, a boolean for `confirm`. */
  datatype Value = Str(text: string) | Bool(flag: bool)

  /** One entry of the configuration's `questions` list; a missing `isPartial` is `false`. */
  datatype Question = Question(name: string, kind: Kind, message: string, choices: seq<string>, isPartial: bool)

  /** The parsed `framework.json`. */
  datatype FrameworkConfig = FrameworkConfig(frameworkName: string, frameworkDescription: string, questions: seq<Question>)

  /** The record pushed for each question. */
  datatype Answer = Answer(name: string, value: Value, kind: Kind, isPartial: bool)

  /** What answer collection hands to the assembler. */
  datatype Selection = Selection(partials: seq<Answer>, templateDir: string)

  /** One recursive copy of `source` onto `dest`. */
  datatype Copy = Copy(source: string, dest: string)

  const StagingDir: string := ".git-repo-temp"
  const TemplatesPrefix: string := ".git-repo-temp/templates/"
  const PartialsPrefix: string := ".git-repo-temp/partials/"
  const ConfigFileName: string := "framework.json"

  /**
   * JavaScript's `toString` of an answer value: a string is itself, a boolean
   * is its lower-case name, so it matches partial directory names as written.
   */
  function ToString(v: Value): (r: string)
    ensures v.Str? ==> r == v.text
    ensures v.Bool? ==> IsLower(r) && r == (if v.flag then "true" else "false")
  {
    match v
    case Str(s) => s
    case Bool(b) => if b then "true" else "false"
  }

  /** JavaScript truthiness of an answer value: a boolean is itself, a string is truthy when non-empty. */
  predicate Truthy(v: Value): (r: bool)
    ensures v.Bool? ==> (r <==> v.flag)
    ensures v.Str? ==> (r <==> |v.text| > 0)
  {
    match v
    case Str(s) => s != ""
    case Bool(b) => b
  }

  // ---------------------------------------------------------------------------
  // Answer collection
  // ---------------------------------------------------------------------------

  /** The record built from question `q` and the response `v` given to it. */
  function AnswerTo(q: Question, v: Value): Answer {
    Answer(q.name, v, q.kind, q.isPartial)
  }

  /**
   * The answers for `questions`, one per question, in question order, each
   * copying its question's name, type and partial flag.
   */
  function AnswersOf(questions: seq<Question>, responses: seq<Value>): (r: seq<Answer>)
    requires |responses| == |questions|
    ensures |r| == |questions|
    ensures forall i :: 0 <= i < |questions| ==>
      && r[i].name == questions[i].name
      && r[i].value == responses[i]
      && r[i].kind == questions[i].kind
      && r[i].isPartial == questions[i].isPartial
  {
    seq(|questions|, i requires 0 <= i < |questions| => AnswerTo(questions[i], responses[i]))
  }

  /**
   * Walks the questions in order and pushes one answer record per question,
   * copying the question's name, type and partial flag.
   */
  method CollectAnswers(questions: seq<Question>, responses: seq<Value>) returns (answers: seq<Answer>)
    requires |responses| == |questions|
    ensures answers == AnswersOf(questions, responses)
    ensures |answers| == |questions|
    ensures forall i :: 0 <= i < |questions| ==>
      && answers[i].name == questions[i].name
      && answers[i].value == responses[i]
      && answers[i].kind == questions[i].kind
      && answers[i].isPartial == questions[i].isPartial
  {
    answers := [];
    for i := 0 to |questions|
      invariant |answers| == i
      invariant forall k :: 0 <= k < i ==> answers[k] == AnswerTo(questions[k], responses[k])
    {
      var q := questions[i];
      answers := answers + [Answer(q.name, responses[i], q.kind, q.isPartial)];
    }
  }

  // ---------------------------------------------------------------------------
  // Partials, fulls and the template key
  // ---------------------------------------------------------------------------

  predicate IsPartial(a: Answer) { a.isPartial }
  predicate IsFull(a: Answer) { !a.isPartial }
  predicate IsNotInput(a: Answer) { a.kind != Input }

  /** An answer that contributes a segment to the template key. */
  predicate IsKeyAnswer(a: Answer) { !a.isPartial && a.kind != Input }

  /** `answers.filter(isPartial)`: the partial answers, each one taken from `answers`. */
  function Partials(answers: seq<Answer>): (r: seq<Answer>)
    ensures |r| <= |answers|
    ensures forall i :: 0 <= i < |r| ==> r[i].isPartial && r[i] in answers
  {
    Filter(IsPartial, answers)
  }

  /** `answers.filter(!isPartial)`: the full answers, each one taken from `answers`. */
  function Fulls(answers: seq<Answer>): (r: seq<Answer>)
    ensures |r| <= |answers|
    ensures forall i :: 0 <= i < |r| ==> !r[i].isPartial && r[i] in answers
  {
    Filter(IsFull, answers)
  }

  /** The fulls that are not of `input` type: answers that are neither partial nor `input`. */
  function KeyAnswers(answers: seq<Answer>): (r: seq<Answer>)
    ensures |r| <= |answers|
    ensures forall i :: 0 <= i < |r| ==> IsKeyAnswer(r[i]) && r[i] in answers
  {
    Filter(IsNotInput, Fulls(answers))
  }

  /** `name:value` for one answer. */
  function Segment(a: Answer): string { a.name + ":" + ToString(a.value) }

  /**
   * The `name:value` segments of the answers that are neither partial nor
   * `input`, joined by `_`, then lower-cased.
   */
  function TemplateKey(answers: seq<Answer>): (r: string)
    ensures IsLower(r)
  {
    KeyOf(KeyAnswers(answers))
  }

  /** The key spelled by a list of key answers. */
  function KeyOf(keyAnswers: seq<Answer>): string {
    Lower(Join(Map(Segment, keyAnswers), "_"))
  }

  /** Keys of non-empty lists of key answers compose with `_`. */
  lemma KeyOfAppend(ka: seq<Answer>, kb: seq<Answer>)
    requires ka != [] && kb != []
    ensures KeyOf(ka + kb) == KeyOf(ka) + "_" + KeyOf(kb)
  {
    var sa, sb := Map(Segment, ka), Map(Segment, kb);
    var ja, jb := Join(sa, "_"), Join(sb, "_");
    calc {
      KeyOf(ka + kb);
      { MapAppend(Segment, ka, kb); }
      Lower(Join(sa + sb, "_"));
      { JoinAppend(sa, sb, "_"); }
      Lower(ja + "_" + jb);
      { LowerAppend(ja + "_", jb); LowerAppend(ja, "_"); }
      Lower(ja) + Lower("_") + Lower(jb);
    }
  }

  /** The selection that answer collection returns for `answers`: only partials, and a lower-case key. */
  function Select(answers: seq<Answer>): (r: Selection)
    ensures forall i :: 0 <= i < |r.partials| ==> r.partials[i].isPartial
    ensures IsLower(r.templateDir)
  {
    Selection(Partials(answers), TemplateKey(answers))
  }

  /**
   * Asks every configured question once, in order, then returns the partial
   * answers and the template directory key.
   */
  method InquiryCli(config: FrameworkConfig, responses: seq<Value>) returns (sel: Selection)
    requires |responses| == |config.questions|
    ensures sel == Select(AnswersOf(config.questions, responses))
  {
    var answers := CollectAnswers(config.questions, responses);
    var partials := Partials(answers);
    var templateDir := TemplateKey(answers);
    sel := Selection(partials, templateDir);
  }

  /** Partials and fulls partition the answers: each answer is in exactly one of them. */
  lemma PartialsFullsPartition(answers: seq<Answer>)
    ensures multiset(Partials(answers)) + multiset(Fulls(answers)) == multiset(answers)
    ensures |Partials(answers)| + |Fulls(answers)| == |answers|
    ensures forall i :: 0 <= i < |answers| && answers[i].isPartial ==> answers[i] in Partials(answers)
    ensures forall i :: 0 <= i < |answers| && !answers[i].isPartial ==> answers[i] in Fulls(answers)
    ensures forall i :: 0 <= i < |Partials(answers)| ==> Partials(answers)[i].isPartial
    ensures forall i :: 0 <= i < |Fulls(answers)| ==> !Fulls(answers)[i].isPartial
  {
    FilterSplit(IsPartial, IsFull, answers);
  }

  /**
   * Partials and fulls keep question order: the split of a concatenation is
   * the concatenation of the splits.
   */
  lemma PartialsFullsAppend(a: seq<Answer>, b: seq<Answer>)
    ensures Partials(a + b) == Partials(a) + Partials(b)
    ensures Fulls(a + b) == Fulls(a) + Fulls(b)
  {
    FilterAppend(IsPartial, a, b);
    FilterAppend(IsFull, a, b);
  }

  /** A single answer goes to the side its partial flag names, and only there. */
  lemma PartialsFullsSingle(x: Answer)
    ensures Partials([x]) == (if x.isPartial then [x] else [])
    ensures Fulls([x]) == (if x.isPartial then [] else [x])
  {
    assert [x][1..] == [];
  }

  /** The key answers are exactly the answers that are neither partial nor `input`. */
  lemma KeyAnswersAreQualifying(answers: seq<Answer>)
    ensures KeyAnswers(answers) == Filter(IsKeyAnswer, answers)
  {
    FilterFilter(IsFull, IsNotInput, IsKeyAnswer, answers);
  }

  /** The template key is already lower-case, so lower-casing it again changes nothing. */
  lemma TemplateKeyIsLower(answers: seq<Answer>)
    ensures IsLower(TemplateKey(answers))
    ensures Lower(TemplateKey(answers)) == TemplateKey(answers)
  {
    LowerIdempotent(Join(Map(Segment, KeyAnswers(answers)), "_"));
  }

  /** The template key is empty exactly when every answer is partial or of `input` type. */
  lemma TemplateKeyEmptyIff(answers: seq<Answer>)
    ensures TemplateKey(answers) == "" <==>
      forall i :: 0 <= i < |answers| ==> answers[i].isPartial || answers[i].kind == Input
  {
    KeyAnswersAreQualifying(answers);
    var segments := Map(Segment, KeyAnswers(answers));
    forall i | 0 <= i < |segments| ensures segments[i] != "" {
      assert ':' in segments[i];
    }
    JoinEmptyIff(segments, "_");
    if KeyAnswers(answers) != [] {
      var x := KeyAnswers(answers)[0];
      assert x in answers && IsKeyAnswer(x);
    }
  }

  /** The key answers of a concatenation are the key answers of each half, in order. */
  lemma KeyAnswersAppend(a: seq<Answer>, b: seq<Answer>)
    ensures KeyAnswers(a + b) == KeyAnswers(a) + KeyAnswers(b)
  {
    FilterAppend(IsFull, a, b);
    FilterAppend(IsNotInput, Fulls(a), Fulls(b));
  }

  /** An answer that is partial or of `input` type never contributes to the key. */
  lemma TemplateKeyIgnores(a: seq<Answer>, x: Answer, b: seq<Answer>)
    requires x.isPartial || x.kind == Input
    ensures TemplateKey(a + [x] + b) == TemplateKey(a + b)
  {
    KeyAnswersAppend(a + [x], b);
    KeyAnswersAppend(a, [x]);
    KeyAnswersAppend(a, b);
    assert Fulls([x]) == (if x.isPartial then [] else [x]);
    assert KeyAnswers([x]) == [];
    assert KeyAnswers(a + [x]) == KeyAnswers(a);
    assert KeyAnswers(a + [x] + b) == KeyAnswers(a + b);
  }

  /** One qualifying answer gives the key `name:value`, all lower-cased. */
  lemma TemplateKeySingle(x: Answer)
    requires !x.isPartial && x.kind != Input
    ensures TemplateKey([x]) == Lower(x.name) + ":" + Lower(ToString(x.value))
  {
    assert KeyAnswers([x]) == [x];
    LowerAppend(x.name + ":", ToString(x.value));
    LowerAppend(x.name, ":");
  }

  /**
   * A full `confirm` answered with a boolean adds `name:true` or `name:false`
   * to the key, with only the name lower-cased.
   */
  lemma TemplateKeyOfConfirm(x: Answer)
    requires !x.isPartial && x.kind == Confirm && x.value.Bool?
    ensures TemplateKey([x]) == Lower(x.name) + ":" + (if x.value.flag then "true" else "false")
  {
    TemplateKeySingle(x);
    LowerOfLower(ToString(x.value));
  }

  /**
   * Keys compose in question order: when both halves have a qualifying
   * answer, the key of the whole is the two keys joined by `_`.
   */
  lemma TemplateKeyConcat(a: seq<Answer>, b: seq<Answer>)
    requires KeyAnswers(a) != [] && KeyAnswers(b) != []
    ensures TemplateKey(a + b) == TemplateKey(a) + "_" + TemplateKey(b)
  {
    KeyAnswersAppend(a, b);
    KeyOfAppend(KeyAnswers(a), KeyAnswers(b));
  }

  // ---------------------------------------------------------------------------
  // Project assembly plan
  // ---------------------------------------------------------------------------

  /** The copy the template directory selected by `templateDir` becomes. */
  function TemplateCopy(templateDir: string, project: string): Copy {
    Copy(TemplatesPrefix + templateDir, project)
  }

  /**
   * The copies one partial answer adds: one for a true confirm or a list
   * choice, none otherwise, always onto the project.
   */
  function PartialCopy(p: Answer, project: string): (r: seq<Copy>)
    ensures |r| <= 1
    ensures |r| == 1 <==> YieldsCopy(p)
    ensures r != [] ==> r[0].dest == project
  {
    if p.kind == List || p.kind == Confirm then
      if p.kind == Confirm && Truthy(p.value) then
        [Copy(PartialsPrefix + p.name, project)]
      else if p.kind == List then
        [Copy(PartialsPrefix + p.name + ":" + Lower(ToString(p.value)), project)]
      else
        []
    else
      []
  }

  /** The copies the partials add, in partials order, all onto the project. */
  function PartialCopies(partials: seq<Answer>, project: string): (r: seq<Copy>)
    ensures forall k :: 0 <= k < |r| ==> r[k].dest == project
  {
    if partials == [] then []
    else PartialCopy(partials[0], project) + PartialCopies(partials[1..], project)
  }

  /**
   * The whole plan for a selection: the template copy first, then the partial
   * overlays, every copy onto the project.
   */
  function Plan(sel: Selection, project: string): (r: seq<Copy>)
    ensures |r| >= 1
    ensures forall k :: 0 <= k < |r| ==> r[k].dest == project
    ensures r[0].source == TemplatesPrefix + sel.templateDir && r[0].dest == project
  {
    [TemplateCopy(sel.templateDir, project)] + PartialCopies(sel.partials, project)
  }

  /** The partial copies of a concatenation are the concatenation of the partial copies. */
  lemma {:induction false} PartialCopiesAppend(a: seq<Answer>, b: seq<Answer>, project: string)
    ensures PartialCopies(a + b, project) == PartialCopies(a, project) + PartialCopies(b, project)
  {
    if a == [] {
      assert a + b == b;
    } else {
      assert (a + b)[1..] == a[1..] + b;
      PartialCopiesAppend(a[1..], b, project);
    }
  }

  /** Extending the partials by the next one extends their copies by its copies. */
  lemma PartialCopiesSnoc(partials: seq<Answer>, i: nat, project: string)
    requires i < |partials|
    ensures PartialCopies(partials[..i + 1], project) == PartialCopies(partials[..i], project) + PartialCopy(partials[i], project)
  {
    assert partials[..i + 1] == partials[..i] + [partials[i]];
    PartialCopiesAppend(partials[..i], [partials[i]], project);
    assert [partials[i]][1..] == [];
  }

  /**
   * Copies the selected template to the project, then overlays each partial
   * in order.
   */
  method BuildProject(sel: Selection, project: string) returns (plan: seq<Copy>)
    ensures plan == Plan(sel, project)
    ensures |plan| >= 1 && plan[0] == Copy(TemplatesPrefix + sel.templateDir, project)
  {
    plan := [Copy(TemplatesPrefix + sel.templateDir, project)];
    var partials := sel.partials;
    for i := 0 to |partials|
      invariant plan == [TemplateCopy(sel.templateDir, project)] + PartialCopies(partials[..i], project)
    {
      var partial := partials[i];
      ghost var before := plan;
      if partial.kind == List || partial.kind == Confirm {
        if partial.kind == Confirm && Truthy(partial.value) {
          plan := plan + [Copy(PartialsPrefix + partial.name, project)];
        } else if partial.kind == List {
          plan := plan + [Copy(PartialsPrefix + partial.name + ":" + Lower(ToString(partial.value)), project)];
        } else {
          assert PartialCopy(partial, project) == [];
        }
      } else {
        assert PartialCopy(partial, project) == [];
      }
      assert plan == before + PartialCopy(partial, project);
      assert plan == [TemplateCopy(sel.templateDir, project)] + PartialCopies(partials[..i + 1], project) by {
        PartialCopiesSnoc(partials, i, project);
      }
    }
    assert plan == Plan(sel, project) by {
      assert partials[..|partials|] == partials;
    }
  }

  /** A partial that yields a copy: a confirm answered true, or any list answer. */
  predicate YieldsCopy(p: Answer) {
    (p.kind == Confirm && Truthy(p.value)) || p.kind == List
  }

  predicate IsConfirmedTrue(p: Answer) { p.kind == Confirm && Truthy(p.value) }
  predicate IsList(p: Answer) { p.kind == List }

  /**
   * Where each partial's copies sit in the plan: the copies of `partials[i]`
   * come after those of every earlier partial and before those of every later one.
   */
  lemma PartialCopiesAt(partials: seq<Answer>, i: nat, project: string)
    requires i < |partials|
    ensures PartialCopies(partials, project) ==
      PartialCopies(partials[..i], project) + PartialCopy(partials[i], project) + PartialCopies(partials[i + 1..], project)
  {
    assert partials == partials[..i] + [partials[i]] + partials[i + 1..];
    PartialCopiesAppend(partials[..i] + [partials[i]], partials[i + 1..], project);
    PartialCopiesAppend(partials[..i], [partials[i]], project);
  }

  /** A confirm partial is copied, from `partials/<name>`, exactly when it is answered true. */
  lemma ConfirmPartialCopiedIffTrue(p: Answer, project: string)
    requires p.kind == Confirm
    ensures PartialCopy(p, project) != [] <==> Truthy(p.value)
    ensures Truthy(p.value) ==> PartialCopy(p, project) == [Copy(PartialsPrefix + p.name, project)]
  {
  }

  /**
   * A list partial is always copied exactly once, from `partials/<name>:<choice>`
   * where only the choice is lower-cased; an `input` partial is never copied.
   */
  lemma ListAndInputPartialRules(p: Answer, project: string)
    ensures p.kind == List ==>
      PartialCopy(p, project) == [Copy(PartialsPrefix + p.name + ":" + Lower(ToString(p.value)), project)]
    ensures p.kind == Input ==> PartialCopy(p, project) == []
  {
  }

  /** The partials add one copy per true confirm and one per list answer. */
  lemma {:induction false} PartialCopiesCount(partials: seq<Answer>, project: string)
    ensures |PartialCopies(partials, project)| == |Filter(IsConfirmedTrue, partials)| + |Filter(IsList, partials)|
  {
    if partials != [] {
      PartialCopiesCount(partials[1..], project);
    }
  }

  /** Every copy after the first comes from the partials directory. */
  lemma {:induction false} PartialCopiesFromPartials(partials: seq<Answer>, project: string)
    ensures forall k :: 0 <= k < |PartialCopies(partials, project)| ==>
      PartialsPrefix <= PartialCopies(partials, project)[k].source && PartialCopies(partials, project)[k].dest == project
  {
    if partials != [] {
      PartialCopiesFromPartials(partials[1..], project);
    }
  }

  /**
   * Over the whole run: the plan has one template copy plus one copy for each
   * answer that is a partial and yields a copy.
   */
  lemma {:induction false} PlanSize(answers: seq<Answer>, project: string)
    ensures |Plan(Select(answers), project)| == 1 + |Filter(YieldsCopy, Filter(IsPartial, answers))|
  {
    var ps := Partials(answers);
    PartialCopiesCount(ps, project);
    YieldsCopyCount(ps);
  }

  /** Counting the copy-yielding partials is counting true confirms plus lists. */
  lemma {:induction false} YieldsCopyCount(ps: seq<Answer>)
    ensures |Filter(YieldsCopy, ps)| == |Filter(IsConfirmedTrue, ps)| + |Filter(IsList, ps)|
  {
    if ps != [] {
      YieldsCopyCount(ps[1..]);
    }
  }

  // ---------------------------------------------------------------------------
  // Top level
  // ---------------------------------------------------------------------------

  /** The staged repository has a configuration when `framework.json` is among its top-level entries. */
  function HasFrameworkConfig(stagedFiles: seq<string>): (r: bool)
    ensures r <==> exists i :: 0 <= i < |stagedFiles| && stagedFiles[i] == ConfigFileName
  {
    ConfigFileName in stagedFiles
  }

  /**
   * With a configuration, asks its questions and builds the project from the
   * selection; without one, copies the whole staged repository verbatim.
   */
  method Run(stagedFiles: seq<string>, project: string, config: FrameworkConfig, responses: seq<Value>)
    returns (plan: seq<Copy>)
    requires HasFrameworkConfig(stagedFiles) ==> |responses| == |config.questions|
    ensures !HasFrameworkConfig(stagedFiles) ==> plan == [Copy(StagingDir, project)]
    ensures !HasFrameworkConfig(stagedFiles) ==> forall c :: c in plan ==>
      !(TemplatesPrefix <= c.source) && !(PartialsPrefix <= c.source)
    ensures HasFrameworkConfig(stagedFiles) ==> |plan| >= 1 && TemplatesPrefix <= plan[0].source
    ensures HasFrameworkConfig(stagedFiles) ==>
      plan == Plan(Select(AnswersOf(config.questions, responses)), project)
  {
    var hasFrameworkConfig := HasFrameworkConfig(stagedFiles);
    if hasFrameworkConfig {
      var sel := InquiryCli(config, responses);
      plan := BuildProject(sel, project);
    } else {
      plan := [Copy(StagingDir, project)];
    }
  }

  // ---------------------------------------------------------------------------
  // Worked scenarios
  // ---------------------------------------------------------------------------

  const LangQuestion := Question("lang", List, "Language?", ["JS", "TS"], false)
  const TestsQuestion := Question("tests", Confirm, "Add tests?", [], true)

  /**
   * For a `lang` list question (a full) followed by a `tests` confirm question
   * (a partial), the key is `lang:` plus the lower-cased choice and the only
   * partial is the `tests` answer.
   */
  lemma ScenarioSelection(lang: string, tests: bool)
    ensures Select(AnswersOf([LangQuestion, TestsQuestion], [Str(lang), Bool(tests)])) ==
      Selection([Answer("tests", Bool(tests), Confirm, true)], "lang:" + Lower(lang))
  {
    var a0, a1 := Answer("lang", Str(lang), List, false), Answer("tests", Bool(tests), Confirm, true);
    var answers := AnswersOf([LangQuestion, TestsQuestion], [Str(lang), Bool(tests)]);
    assert answers == [a0] + [a1];
    PartialsFullsAppend([a0], [a1]);
    PartialsFullsSingle(a0);
    PartialsFullsSingle(a1);
    KeyAnswersAppend([a0], [a1]);
    assert KeyAnswers([a1]) == [];
    assert KeyAnswers([a0]) == [a0];
    ScenarioKey(a0, lang);
  }

  /** The key of the single `lang` answer is `lang:` plus the lower-cased choice. */
  lemma ScenarioKey(a0: Answer, lang: string)
    requires a0 == Answer("lang", Str(lang), List, false)
    ensures TemplateKey([a0]) == "lang:" + Lower(lang)
  {
    TemplateKeySingle(a0);
    assert IsLower("lang");
    LowerOfLower("lang");
    assert "lang" + ":" + Lower(lang) == "lang:" + Lower(lang);
  }

  /** The plan for a selection with one partial. */
  lemma PlanOfOnePartial(key: string, p: Answer, project: string)
    ensures Plan(Selection([p], key), project) == [Copy(TemplatesPrefix + key, project)] + PartialCopy(p, project)
  {
    assert [p][1..] == [];
    assert PartialCopies([p], project) == PartialCopy(p, project) + [];
    assert PartialCopy(p, project) + [] == PartialCopy(p, project);
  }

  /**
   * The plan for that pair of questions: the template `lang:<choice>`, then
   * the `tests` partial exactly when it is answered true.
   */
  lemma ScenarioPlan(lang: string, tests: bool, project: string)
    ensures Plan(Select(AnswersOf([LangQuestion, TestsQuestion], [Str(lang), Bool(tests)])), project) ==
      [Copy(TemplatesPrefix + ("lang:" + Lower(lang)), project)] + (if tests then [Copy(PartialsPrefix + "tests", project)] else [])
  {
    var p, key := Answer("tests", Bool(tests), Confirm, true), "lang:" + Lower(lang);
    var sel := Select(AnswersOf([LangQuestion, TestsQuestion], [Str(lang), Bool(tests)]));
    assert sel == Selection([p], key) by {
      ScenarioSelection(lang, tests);
    }
    assert Plan(sel, project) == [Copy(TemplatesPrefix + key, project)] + PartialCopy(p, project) by {
      PlanOfOnePartial(key, p, project);
    }
    assert PartialCopy(p, project) == (if tests then [Copy(PartialsPrefix + "tests", project)] else []);
  }

  /** `lang` = "TS", `tests` = true: template `lang:ts`, then partial `tests`. */
  lemma ScenarioTypeScriptWithTests(project: string)
    ensures Plan(Select(AnswersOf([LangQuestion, TestsQuestion], [Str("TS"), Bool(true)])), project) ==
      [Copy(".git-repo-temp/templates/lang:ts", project), Copy(".git-repo-temp/partials/tests", project)]
  {
    ScenarioPlan("TS", true, project);
    assert Lower("TS") == "ts";
    assert TemplatesPrefix + ("lang:" + "ts") == ".git-repo-temp/templates/lang:ts";
    assert PartialsPrefix + "tests" == ".git-repo-temp/partials/tests";
  }

  /** `lang` = "JS", `tests` = false: template `lang:js` and no partial copy. */
  lemma ScenarioJavaScriptWithoutTests(project: string)
    ensures Plan(Select(AnswersOf([LangQuestion, TestsQuestion], [Str("JS"), Bool(false)])), project) ==
      [Copy(".git-repo-temp/templates/lang:js", project)]
  {
    ScenarioPlan("JS", false, project);
    assert Lower("JS") == "js";
    assert TemplatesPrefix + ("lang:" + "js") == ".git-repo-temp/templates/lang:js";
  }
}
