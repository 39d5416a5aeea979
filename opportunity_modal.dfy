/** The opportunity form: its initial values, the field-by-field updates of
    `formData`, the comma-separated skill parsing, and submission. The form
    data is a JavaScript object, so an update by field name is a map update. */
module OpportunityModal {
  import opened Wrappers
  import opened Json
  import opened Text

  const SkillsField: string := "skills_required"

  /** The form's fields and their values when no initial data is given. */
  const Defaults: Object := map[
    "title" := JStr(""),
    "description" := JStr(""),
    "date" := JStr(""),
    "location" := JStr(""),
    "volunteers_needed" := JNum(1),
    SkillsField := JArr([]),
    "duration" := JStr(""),
    "category" := JStr("")]

  /** The initial `formData`: each field takes the initial data's value when
      that is truthy, else its default; other keys of the initial data are
      not copied. */
  function InitialForm(initialData: Option<Object>): (form: Object)
    ensures form.Keys == Defaults.Keys
    ensures initialData.None? ==> form == Defaults
    ensures forall k :: k in Defaults && initialData.Some? && TruthyAt(initialData.value, k) ==> form[k] == initialData.value[k]
    ensures forall k :: k in Defaults && !(initialData.Some? && TruthyAt(initialData.value, k)) ==> form[k] == Defaults[k]
  {
    map k | k in Defaults :: if initialData.Some? && TruthyAt(initialData.value, k) then initialData.value[k] else Defaults[k]
  }

  /** A zero `volunteers_needed` is falsy, so the form starts at 1 instead. */
  lemma ZeroVolunteersNeededStartsAtOne(initialData: Object)
    requires "volunteers_needed" in initialData && initialData["volunteers_needed"] == JNum(0)
    ensures InitialForm(Some(initialData))["volunteers_needed"] == JNum(1)
  {
  }

  function TrimEach(xs: seq<string>): (r: seq<string>)
    ensures |r| == |xs|
    ensures forall i :: 0 <= i < |xs| ==> r[i] == Trim(xs[i])
  {
    if xs == [] then []
    else
      var rest := TrimEach(xs[1..]);
      assert forall i :: 1 <= i < |xs| ==> xs[i] == xs[1..][i - 1];
      [Trim(xs[0])] + rest
  }

  /** Trimming cannot bring in a character the pieces do not hold. */
  lemma TrimKeepsOut(p: string, c: char)
    requires c !in p
    ensures c !in Trim(p)
  {
    TrimCut(p);
    var r := Trim(p);
    var j := LeadingSpace(p);
    assert r == p[j..j + |r|];
  }

  /** `value.split(',').map(s => s.trim())`: one entry per comma plus one,
      each trimmed and comma-free; so the empty text gives `[""]`. */
  function ParseSkills(text: string): (r: seq<string>)
    ensures |r| == Occurrences(text, ',') + 1
    ensures forall i :: 0 <= i < |r| ==> Trimmed(r[i]) && ',' !in r[i]
  {
    var pieces := Split(text, ',');
    var r := TrimEach(pieces);
    forall i | 0 <= i < |r|
      ensures Trimmed(r[i]) && ',' !in r[i]
    {
      TrimKeepsOut(pieces[i], ',');
    }
    r
  }

  lemma ParseEmptyText()
    ensures ParseSkills("") == [""]
  {
    assert Trim("") == "";
  }

  /** A space after a comma makes no difference to the parse. */
  lemma ParseLeadingSpace(s: string)
    ensures ParseSkills(" " + s) == ParseSkills(s)
  {
    var rest := Split(s, ',');
    assert (" " + s)[1..] == s;
    assert Split(" " + s, ',') == [" " + rest[0]] + rest[1..];
    TrimLeadingSpace(rest[0]);
  }

  lemma ParseSingleSkill(s: string)
    requires ',' !in s && Trimmed(s)
    ensures ParseSkills(s) == [s]
  {
    SplitNoSeparator(s, ',');
    TrimOfTrimmed(s);
  }

  /** A comma ends one skill: what precedes it is trimmed, the rest parsed. */
  lemma ParseAfterPiece(a: string, b: string)
    requires ',' !in a
    ensures ParseSkills(a + [','] + b) == [Trim(a)] + ParseSkills(b)
  {
    SplitAfterPiece(a, b, ',');
  }

  lemma JoinedWithCommaSpace(xs: seq<string>)
    requires |xs| >= 2
    ensures Join(xs, ", ") == xs[0] + [','] + (" " + Join(xs[1..], ", "))
  {
    var a, j := xs[0], Join(xs[1..], ", ");
    assert Join(xs, ", ") == a + ", " + j;
    var l, r := a + ", " + j, a + [','] + (" " + j);
    assert |l| == |r|;
    forall i | 0 <= i < |l|
      ensures l[i] == r[i]
    {
      if i < |a| {
      } else if i < |a| + 2 {
      } else {
      }
    }
  }

  lemma ParseFirstShownSkill(xs: seq<string>)
    requires |xs| >= 2 && ',' !in xs[0] && Trimmed(xs[0])
    ensures ParseSkills(Join(xs, ", ")) == [xs[0]] + ParseSkills(Join(xs[1..], ", "))
  {
    var tail := Join(xs[1..], ", ");
    JoinedWithCommaSpace(xs);
    ParseAfterPiece(xs[0], " " + tail);
    ParseLeadingSpace(tail);
    TrimOfTrimmed(xs[0]);
  }

  lemma ParseShownStep(xs: seq<string>)
    requires |xs| >= 2 && ',' !in xs[0] && Trimmed(xs[0])
    requires ParseSkills(Join(xs[1..], ", ")) == xs[1..]
    ensures ParseSkills(Join(xs, ", ")) == xs
  {
    ParseFirstShownSkill(xs);
    assert xs == [xs[0]] + xs[1..];
  }

  /** The skills input shows `skills.join(', ')`; parsing that text gives the
      list back, provided the list is not empty and no skill holds a comma or
      leading or trailing whitespace. */
  lemma {:induction false} ParseShownSkills(xs: seq<string>)
    requires |xs| >= 1
    requires forall i :: 0 <= i < |xs| ==> ',' !in xs[i] && Trimmed(xs[i])
    ensures ParseSkills(Join(xs, ", ")) == xs
  {
    if |xs| == 1 {
      ParseSingleSkill(xs[0]);
    } else {
      ParseShownSkills(xs[1..]);
      ParseShownStep(xs);
    }
  }

  /** The empty list is shown as "", which parses to `[""]`, not `[]`. */
  lemma EmptySkillsDoNotRoundTrip()
    ensures ParseSkills(Join([], ", ")) == [""]
  {
    ParseEmptyText();
  }

  /** As written, the skills input shows the list joined by ", " and parses
      every keystroke straight back: a space typed at the end is trimmed
      away at once and the list, so the text shown, stays as it was. A skill
      of two words can therefore not be typed in order. */
  lemma {:induction false} TypedSpaceIsLost(xs: seq<string>)
    requires |xs| >= 1
    requires forall i :: 0 <= i < |xs| ==> ',' !in xs[i] && Trimmed(xs[i])
    ensures ParseSkills(Join(xs, ", ") + " ") == xs
  {
    if |xs| == 1 {
      ParseSkillThenSpace(xs[0]);
    } else {
      TypedSpaceIsLost(xs[1..]);
      TypedSpaceStep(xs);
    }
  }

  lemma ParseSkillThenSpace(s: string)
    requires ',' !in s && Trimmed(s)
    ensures ParseSkills(s + " ") == [s]
  {
    SplitNoSeparator(s + " ", ',');
    TrimTrailingSpace(s);
  }

  lemma TypedSpaceStep(xs: seq<string>)
    requires |xs| >= 2 && ',' !in xs[0] && Trimmed(xs[0])
    requires ParseSkills(Join(xs[1..], ", ") + " ") == xs[1..]
    ensures ParseSkills(Join(xs, ", ") + " ") == xs
  {
    TypedSpaceAfterFirst(xs);
    assert xs == [xs[0]] + xs[1..];
  }

  lemma JoinedPlusSpace(xs: seq<string>)
    requires |xs| >= 2
    ensures Join(xs, ", ") + " " == xs[0] + [','] + (" " + (Join(xs[1..], ", ") + " "))
  {
    JoinedWithCommaSpace(xs);
    var j := Join(xs[1..], ", ");
    assert xs[0] + [','] + (" " + j) + " " == xs[0] + [','] + (" " + (j + " "));
  }

  lemma TypedSpaceAfterFirst(xs: seq<string>)
    requires |xs| >= 2 && ',' !in xs[0] && Trimmed(xs[0])
    ensures ParseSkills(Join(xs, ", ") + " ") == [xs[0]] + ParseSkills(Join(xs[1..], ", ") + " ")
  {
    var tail := Join(xs[1..], ", ") + " ";
    JoinedPlusSpace(xs);
    ParseAfterPiece(xs[0], " " + tail);
    ParseLeadingSpace(tail);
    TrimOfTrimmed(xs[0]);
  }

  /** With the text kept as typed, the string branch of `handleSubmit`
      parses it once, on submit: a skill may hold inner spaces. */
  lemma TypedSkillsTextSubmitted(form: Object, text: string)
    ensures Submitted(form[SkillsField := JStr(text)])[SkillsField] == JArr(Strings(ParseSkills(text)))
  {
  }

  lemma FirstAidIsKept(form: Object)
    ensures Submitted(form[SkillsField := JStr("first aid")])[SkillsField] == JArr(Strings(["first aid"]))
  {
    ParseSingleSkill("first aid");
    TypedSkillsTextSubmitted(form, "first aid");
  }

  /** `processedData` in `handleSubmit`: a string `skills_required` is
      parsed into an array; every other value is passed on as it is. */
  function Submitted(form: Object): (d: Object)
    ensures SkillsField in form && form[SkillsField].JStr? ==>
      d == form[SkillsField := JArr(Strings(ParseSkills(form[SkillsField].s)))]
    ensures !(SkillsField in form && form[SkillsField].JStr?) ==> d == form
    ensures SkillsField in form ==> SkillsField in d && (d[SkillsField].JArr? <==> form[SkillsField].JArr? || form[SkillsField].JStr?)
  {
    if SkillsField in form && form[SkillsField].JStr? then
      form[SkillsField := JArr(Strings(ParseSkills(form[SkillsField].s)))]
    else form
  }

  /** The calls the modal makes on its props, in order. */
  datatype Callback = OnSubmit(data: Object) | OnClose

  /** The modal's own state is its form; `isOpen` is a prop its parent
      passes in. */
  class Modal {
    var formData: Object

    constructor (initialData: Option<Object>)
      ensures formData == InitialForm(initialData)
    {
      formData := InitialForm(initialData);
    }

    /** A closed modal renders nothing; an open one shows `formData`. */
    function Render(isOpen: bool): (view: Option<Object>)
      reads this
      ensures view.None? <==> !isOpen
      ensures view.Some? ==> view.value == formData
    {
      if isOpen then Some(formData) else None
    }

    /** `handleChange`: the field the input names takes the typed text; no
      other field changes. */
    method HandleChange(name: string, value: string)
      modifies this
      ensures formData == old(formData)[name := JStr(value)]
      ensures forall k :: k != name && k in old(formData) ==> k in formData && formData[k] == old(formData)[k]
    {
      formData := formData[name := JStr(value)];
    }

    /** `handleSkillsChange`: the skills become the parsed list of the text. */
    method HandleSkillsChange(text: string)
      modifies this
      ensures formData == old(formData)[SkillsField := JArr(Strings(ParseSkills(text)))]
    {
      var skills := ParseSkills(text);
      formData := formData[SkillsField := JArr(Strings(skills))];
    }

    /** The skills input as its `handleSubmit` evidently intends: the text
      is kept as typed and becomes a list only on submit. */
    method HandleSkillsText(text: string)
      modifies this
      ensures formData == old(formData)[SkillsField := JStr(text)]
    {
      formData := formData[SkillsField := JStr(text)];
    }

    /** `handleSubmit`: `onSubmit` once with the processed data, then `onClose`. */
    method HandleSubmit() returns (calls: seq<Callback>)
      ensures calls == [OnSubmit(Submitted(formData)), OnClose]
    {
      var processed := formData;
      if SkillsField in formData && formData[SkillsField].JStr? {
        var skills := ParseSkills(formData[SkillsField].s);
        processed := formData[SkillsField := JArr(Strings(skills))];
      }
      calls := [OnSubmit(processed), OnClose];
    }
  }
}
