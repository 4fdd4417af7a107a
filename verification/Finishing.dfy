/** How a job's finishing attributes choose its cut policy: the patched PAPPL's validation and the driver's reading. */
module Finishing {
  import opened Bytes
  import opened Cutter
  import opened Decoder
  import opened Stream

  /** One member of a finishing collection: its name, whether it is a keyword, and its values. */
  datatype Member = Member(name: string, keyword: bool, values: seq<string>)

  /** An IPP attribute as submitted; keyword members have at least one value. */
  datatype Attribute = Enums(values: seq<int>) | NoValue | Collections(cols: seq<seq<Member>>) | Other

  const TEMPLATE := "finishing-template"

  // ---------- The driver ----------

  /** The driver's finishing table: enums, template names and cut modes. */
  function ModeOfEnum(value: int): Option<CutMode> {
    if value == 3 then Some(NoCut)
    else if value == 11 then Some(Each)
    else if value == 60 then Some(Each)
    else if value == 63 then Some(End)
    else None
  }

  function ModeOfTemplate(name: string): Option<CutMode> {
    if name == "trim" then Some(Each)
    else if name == "trim-after-pages" then Some(Each)
    else if name == "trim-after-job" then Some(End)
    else if name == "ptouch-chain" then Some(Chain)
    else None
  }

  const ENUMS: set<int> := {3, 11, 60, 63}
  const TEMPLATES: set<string> := {"trim", "trim-after-pages", "trim-after-job", "ptouch-chain"}

  /** What a list of enums means, whatever its order and repetitions. */
  function Meant(values: seq<int>): Option<CutMode> {
    if values == [] || exists i :: 0 <= i < |values| && values[i] !in ENUMS then None
    else if 11 in values || 60 in values then Some(Each)
    else if 63 in values then Some(End)
    else Some(NoCut)
  }

  method FoldEnums(values: seq<int>) returns (mode: Option<CutMode>)
    ensures mode == Meant(values)
  {
    if values == [] {
      return None;
    }
    var chosen := NoCut;
    for i := 0 to |values|
      invariant forall k :: 0 <= k < i ==> values[k] in ENUMS
      invariant chosen ==
        if 11 in values[..i] || 60 in values[..i] then Each else if 63 in values[..i] then End else NoCut
    {
      var selected := ModeOfEnum(values[i]);
      if selected.None? {
        return None;
      }
      if selected.value == Each || chosen == NoCut {
        chosen := selected.value;
      }
      assert values[..i + 1] == values[..i] + [values[i]];
    }
    assert values[..|values|] == values;
    mode := Some(chosen);
  }

  /** The first keyword member of a name, as the library finds it. */
  function FindMember(col: seq<Member>, name: string): Option<Member> {
    if col == [] then None
    else if col[0].name == name && col[0].keyword then Some(col[0])
    else FindMember(col[1..], name)
  }

  /** The mode a collection names, if it is readable. */
  function ModeOfCollection(col: Attribute): Option<CutMode> {
    match col
    case NoValue => Some(NoCut)
    case Collections(cols) =>
      if |cols| != 1 then None
      else
        var member := FindMember(cols[0], TEMPLATE);
        if member.None? || |member.value.values| != 1 then None else ModeOfTemplate(member.value.values[0])
    case _ => None
  }

  /** A job's policy: one of the two selections, or else the printer's default. */
  method JobPolicy(values: Option<Attribute>, col: Option<Attribute>, defaults: Option<Attribute>)
    returns (policy: Option<Policy>)
    ensures policy == PolicyOf(values, col, defaults)
    ensures policy.Some? <==> Acceptable(values, col, defaults)
    ensures policy.Some? ==> (policy.value.cutBetween <==> CutsApart(values, col, defaults))
    ensures policy.Some? ==> (policy.value.cutAtEnd <==> CutsEnd(values, col, defaults))
  {
    PolicyIsAsNamed(values, col, defaults);
    hide Acceptable, CutsApart, CutsEnd;
    if values.Some? && col.Some? {
      return None;
    }
    var mode: Option<CutMode> := None;
    if col.Some? {
      mode := ModeOfCollection(col.value);
    } else if values.Some? {
      if values.value.Enums? {
        mode := FoldEnums(values.value.values);
      }
    } else if defaults.Some? && defaults.value.Enums? && |defaults.value.values| == 1 {
      mode := ModeOfEnum(defaults.value.values[0]);
    }
    policy := if mode.Some? then Some(PolicyFor(mode.value)) else None;
  }

  function PolicyOf(values: Option<Attribute>, col: Option<Attribute>, defaults: Option<Attribute>): Option<Policy> {
    var mode :=
      if values.Some? && col.Some? then None
      else if col.Some? then ModeOfCollection(col.value)
      else if values.Some? then if values.value.Enums? then Meant(values.value.values) else None
      else if defaults.Some? && defaults.value.Enums? && |defaults.value.values| == 1 then Meant(defaults.value.values)
      else None;
    if mode.Some? then Some(PolicyFor(mode.value)) else None
  }

  // ---------- What the names mean ----------

  /** The collection asks for a template: its first keyword member of that name has this one value. */
  predicate AsksFor(col: Attribute, template: string) {
    && col.Collections? && |col.cols| == 1
    && exists i :: 0 <= i < |col.cols[0]| && FirstTemplate(col.cols[0], i) && col.cols[0][i].values == [template]
  }

  predicate FirstTemplate(col: seq<Member>, i: nat)
    requires i < |col|
  {
    && col[i].name == "finishing-template" && col[i].keyword
    && forall k :: 0 <= k < i ==> col[k].name != "finishing-template" || !col[k].keyword
  }

  /** The enums are a list of known ones. */
  predicate KnownEnums(values: Attribute) {
    values.Enums? && values.values != [] && forall i :: 0 <= i < |values.values| ==> values.values[i] in {3, 11, 60, 63}
  }

  /** One selection is made, or none and the printer has a default; and it is one the driver knows. */
  predicate Acceptable(values: Option<Attribute>, col: Option<Attribute>, defaults: Option<Attribute>) {
    if values.Some? && col.Some? then false
    else if col.Some? then
      || col.value.NoValue? || AsksFor(col.value, "trim") || AsksFor(col.value, "trim-after-pages")
      || AsksFor(col.value, "trim-after-job") || AsksFor(col.value, "ptouch-chain")
    else if values.Some? then KnownEnums(values.value)
    else
      || defaults == Some(Enums([3])) || defaults == Some(Enums([11]))
      || defaults == Some(Enums([60])) || defaults == Some(Enums([63]))
  }

  /** The selection asks for a cut between the labels of a job. */
  predicate CutsApart(values: Option<Attribute>, col: Option<Attribute>, defaults: Option<Attribute>) {
    if col.Some? then
      AsksFor(col.value, "trim") || AsksFor(col.value, "trim-after-pages") || AsksFor(col.value, "ptouch-chain")
    else if values.Some? then values.value.Enums? && (11 in values.value.values || 60 in values.value.values)
    else defaults == Some(Enums([11])) || defaults == Some(Enums([60]))
  }

  /** The selection asks for a cut behind its last label. */
  predicate CutsEnd(values: Option<Attribute>, col: Option<Attribute>, defaults: Option<Attribute>) {
    if col.Some? then
      AsksFor(col.value, "trim") || AsksFor(col.value, "trim-after-pages") || AsksFor(col.value, "trim-after-job")
    else if values.Some? then
      values.value.Enums? && (11 in values.value.values || 60 in values.value.values || 63 in values.value.values)
    else defaults == Some(Enums([11])) || defaults == Some(Enums([60])) || defaults == Some(Enums([63]))
  }

  lemma {:induction false} FoundFirst(col: seq<Member>)
    ensures var member := FindMember(col, TEMPLATE);
      if member.None? then forall i :: 0 <= i < |col| ==> !FirstTemplate(col, i)
      else exists i :: 0 <= i < |col| && FirstTemplate(col, i) && col[i] == member.value
  {
    if col != [] && !(col[0].name == TEMPLATE && col[0].keyword) {
      FoundFirst(col[1..]);
      var member := FindMember(col[1..], TEMPLATE);
      if member.Some? {
        var i :| 0 <= i < |col[1..]| && FirstTemplate(col[1..], i) && col[1..][i] == member.value;
        assert FirstTemplate(col, i + 1);
      } else {
        forall i | 0 <= i < |col| ensures !FirstTemplate(col, i) {
          assert i > 0 && FirstTemplate(col, i) ==> FirstTemplate(col[1..], i - 1);
        }
      }
    } else if col != [] {
      assert FirstTemplate(col, 0);
    }
  }

  lemma OneFirst(col: seq<Member>, i: nat, k: nat)
    requires i < |col| && k < |col| && FirstTemplate(col, i) && FirstTemplate(col, k)
    ensures i == k
  {}

  /** A collection asks for the one value of the member that is found. */
  lemma AskedIsFound(col: Attribute, template: string)
    requires col.Collections? && |col.cols| == 1
    ensures AsksFor(col, template) <==>
      var member := FindMember(col.cols[0], TEMPLATE); member.Some? && member.value.values == [template]
  {
    hide FindMember, FirstTemplate;
    var one := col.cols[0];
    FoundFirst(one);
    forall i, k | 0 <= i < |one| && 0 <= k < |one| && FirstTemplate(one, i) && FirstTemplate(one, k) ensures i == k {
      OneFirst(one, i, k);
    }
  }

  lemma OneValue(values: seq<string>, value: string)
    ensures values == [value] <==> |values| == 1 && values[0] == value
  {}

  /** A job's policy is what its selection names: whether the labels are cut apart, and whether the end is cut. */
  lemma PolicyIsAsNamed(values: Option<Attribute>, col: Option<Attribute>, defaults: Option<Attribute>)
    ensures var policy := PolicyOf(values, col, defaults);
      && (policy.Some? <==> Acceptable(values, col, defaults))
      && (policy.Some? ==> (policy.value.cutBetween <==> CutsApart(values, col, defaults)))
      && (policy.Some? ==> (policy.value.cutAtEnd <==> CutsEnd(values, col, defaults)))
  {
    if values.Some? && col.Some? {
    } else if col.Some? {
      CollectionIsAsNamed(col.value);
    } else if values.Some? {
    } else if defaults.Some? && defaults.value.Enums? && |defaults.value.values| == 1 {
      var v := defaults.value.values;
      assert v == [v[0]];
    }
  }

  lemma CollectionIsAsNamed(col: Attribute)
    ensures var policy := PolicyOf(None, Some(col), None);
      && (policy.Some? <==> Acceptable(None, Some(col), None))
      && (policy.Some? ==> (policy.value.cutBetween <==> CutsApart(None, Some(col), None)))
      && (policy.Some? ==> (policy.value.cutAtEnd <==> CutsEnd(None, Some(col), None)))
  {
    hide AsksFor, FindMember;
    if col.Collections? && |col.cols| == 1 {
      TemplatesAsked(col);
    } else {
      NoneAsked(col);
    }
  }

  /** Asking for one of the four templates, on the member that is found. */
  lemma TemplatesAsked(col: Attribute)
    requires col.Collections? && |col.cols| == 1
    ensures var member := FindMember(col.cols[0], TEMPLATE);
      forall t | t in ["trim", "trim-after-pages", "trim-after-job", "ptouch-chain"] ::
        AsksFor(col, t) <==> member.Some? && |member.value.values| == 1 && member.value.values[0] == t
  {
    hide AsksFor, FindMember;
    var member := FindMember(col.cols[0], TEMPLATE);
    forall t | t in ["trim", "trim-after-pages", "trim-after-job", "ptouch-chain"]
      ensures AsksFor(col, t) <==> member.Some? && |member.value.values| == 1 && member.value.values[0] == t
    {
      AskedIsFound(col, t);
      if member.Some? {
        OneValue(member.value.values, t);
      }
    }
  }

  lemma NoneAsked(col: Attribute)
    requires !col.Collections? || |col.cols| != 1
    ensures forall template :: !AsksFor(col, template)
  {}

  /** On the tape: a job first cuts off what is held; its labels then lie on strips of their own exactly when its
      selection asks for a cut between labels, and on one strip otherwise; and its end is cut off exactly when the
      selection asks for that. */
  lemma SelectionOnTape(values: Option<Attribute>, col: Option<Attribute>, defaults: Option<Attribute>, model: Model,
                        r: Rec, t: Tape)
    requires r.Job? && Whole(r) && PolicyOf(values, col, defaults) == Some(r.policy) && t.page == []
    ensures var before := t.shown.strips + if t.shown.held == [] then [] else [t.shown.held];
      var after := RunTape(t, StreamOf(model, r)).shown;
      var all := after.strips + if after.held == [] then [] else [after.held];
      && before <= all
      && (if CutsApart(values, col, defaults) then
            |all| == |before| + |r.labels| && forall i :: 0 <= i < |r.labels| ==> all[|before| + i] == [r.labels[i]]
          else all == before + [r.labels])
      && (after.held == [] <==> CutsEnd(values, col, defaults))
  {
    hide CutsApart, CutsEnd, Acceptable, PolicyOf, StreamOf, RunTape;
    PolicyIsAsNamed(values, col, defaults);
    RecordOnTape(model, r, t);
    var strips := StripsOf(r.policy, r.labels);
    var all := Stream.Cut(t.shown).strips + strips;
    assert all[..|all| - 1] + [all[|all| - 1]] == all;
    assert all[|all| - 1] == strips[|strips| - 1] != [];
  }

  // ---------- The patched library ----------

  /** The library's enum for a template name; 0 stands for every name without a trim enum. */
  function EnumOfTemplate(name: string): int {
    if name == "trim" then 11
    else if name == "trim-after-pages" then 60
    else if name == "trim-after-job" then 63
    else 0
  }

  function TemplateOfEnum(value: int): string {
    if value == 11 then "trim" else if value == 60 then "trim-after-pages" else "trim-after-job"
  }

  /** What the library makes of a list of enums, whatever its order. */
  function Trimmed(values: seq<int>): int {
    if values == [] || exists i :: 0 <= i < |values| && values[i] !in ENUMS then -1
    else if 60 in values then 60
    else if 11 in values then 11
    else if 63 in values then 63
    else 3
  }

  method TrimEnums(values: seq<int>) returns (result: int)
    ensures result == Trimmed(values)
    ensures result >= 0 <==> KnownEnums(Enums(values))
    ensures result >= 0 ==>
      && (result == 60 <==> 60 in values) && (result == 11 <==> 11 in values && 60 !in values)
      && (result == 63 <==> 63 in values && 11 !in values && 60 !in values)
      && (result == 3 <==> forall i :: 0 <= i < |values| ==> values[i] == 3)
  {
    if values == [] {
      return -1;
    }
    result := 3;
    for i := 0 to |values|
      invariant forall k :: 0 <= k < i ==> values[k] in ENUMS
      invariant result ==
        if 60 in values[..i] then 60 else if 11 in values[..i] then 11 else if 63 in values[..i] then 63 else 3
    {
      var value := values[i];
      assert values[..i + 1] == values[..i] + [value];
      if value !in ENUMS {
        return -1;
      }
      if value != 3 {
        if result == 3 || (result == 63 && (value == 11 || value == 60)) || value == 60 {
          result := value;
        }
      }
    }
    assert values[..|values|] == values;
  }

  /** Only template keywords of one value, and a template the driver advertises. */
  predicate PlainCollection(col: seq<Member>) {
    forall i :: 0 <= i < |col| ==> col[i].name == TEMPLATE && col[i].keyword && |col[i].values| == 1
  }

  method IsPlain(col: seq<Member>) returns (plain: bool)
    ensures plain <==> PlainCollection(col)
  {
    for i := 0 to |col|
      invariant forall k :: 0 <= k < i ==> col[k].name == TEMPLATE && col[k].keyword && |col[k].values| == 1
    {
      if col[i].name != TEMPLATE || !col[i].keyword || |col[i].values| != 1 {
        return false;
      }
    }
    plain := true;
  }

  /** -1 refuses a selection; 0 is an advertised template without an enum. */
  function Selected(selection: Attribute): int {
    match selection
    case NoValue => 3
    case Enums(values) => Trimmed(values)
    case Collections(cols) =>
      if |cols| != 1 || !PlainCollection(cols[0]) then -1
      else
        var member := FindMember(cols[0], TEMPLATE);
        if member.None? || |member.value.values| != 1 || member.value.values[0] !in TEMPLATES then -1
        else EnumOfTemplate(member.value.values[0])
    case Other => -1
  }

  method TrimSelection(selection: Attribute) returns (result: int)
    ensures result == Selected(selection)
    ensures selection.NoValue? ==> result == 3
    ensures selection.Enums? ==> result == Trimmed(selection.values)
    ensures selection.Collections? ==>
      var plain := |selection.cols| == 1 && PlainCollection(selection.cols[0]);
      && (result == 11 <==> plain && AsksFor(selection, "trim"))
      && (result == 60 <==> plain && AsksFor(selection, "trim-after-pages"))
      && (result == 63 <==> plain && AsksFor(selection, "trim-after-job"))
      && (result == 0 <==> plain && AsksFor(selection, "ptouch-chain"))
      && result in {-1, 0, 11, 60, 63}
  {
    hide AsksFor, FindMember, PlainCollection;
    match selection
    case NoValue => result := 3;
    case Enums(values) => result := TrimEnums(values);
    case Collections(cols) =>
      CollectionIsRead(selection);
      if |cols| != 1 {
        return -1;
      }
      var plain := IsPlain(cols[0]);
      if !plain {
        return -1;
      }
      var member := FindMember(cols[0], TEMPLATE);
      if member.None? || |member.value.values| != 1 || member.value.values[0] !in TEMPLATES {
        return -1;
      }
      result := EnumOfTemplate(member.value.values[0]);
    case Other => result := -1;
  }

  lemma CollectionIsRead(selection: Attribute)
    requires selection.Collections?
    ensures var plain, result := |selection.cols| == 1 && PlainCollection(selection.cols[0]), Selected(selection);
      && (result == 11 <==> plain && AsksFor(selection, "trim"))
      && (result == 60 <==> plain && AsksFor(selection, "trim-after-pages"))
      && (result == 63 <==> plain && AsksFor(selection, "trim-after-job"))
      && (result == 0 <==> plain && AsksFor(selection, "ptouch-chain"))
      && result in {-1, 0, 11, 60, 63}
  {
    hide AsksFor, FindMember, PlainCollection;
    CollectionIsAsNamed(selection);
    if |selection.cols| == 1 {
      TemplatesAsked(selection);
    }
  }

  /** The library's check of a job request. */
  predicate Validated(values: Option<Attribute>, col: Option<Attribute>) {
    && !(values.Some? && col.Some?)
    && (values.Some? ==> values.value.Enums? && Selected(values.value) >= 0)
    && (col.Some? ==> (col.value.Collections? || col.value.NoValue?) && Selected(col.value) >= 0)
  }

  /** The policy of a selection the library has accepted. */
  function PolicyOfSelected(result: int): Policy {
    PolicyFor(if result == 0 then Chain else if result == 3 then NoCut else if result == 63 then End else Each)
  }

  // ---------- The two agree ----------

  /** Both folds accept the same lists and mean the same policy by them. */
  lemma FoldsAgree(values: seq<int>)
    ensures Trimmed(values) == -1 <==> Meant(values).None?
    ensures Trimmed(values) != -1 ==> PolicyFor(Meant(values).value) == PolicyOfSelected(Trimmed(values))
  {}

  /** Neither order nor repetition of the enums matters. */
  lemma OrderDoesNotMatter(a: seq<int>, b: seq<int>)
    requires forall v :: v in a <==> v in b
    ensures Meant(a) == Meant(b) && Trimmed(a) == Trimmed(b)
  {
    NothingNew(a, b);
    NothingNew(b, a);
  }

  lemma NothingNew(a: seq<int>, b: seq<int>)
    requires forall v :: v in a ==> v in b
    ensures b == [] ==> a == []
    ensures (exists i :: 0 <= i < |a| && a[i] !in ENUMS) ==> exists i :: 0 <= i < |b| && b[i] !in ENUMS
  {
    forall i | 0 <= i < |a| ensures exists k :: 0 <= k < |b| && b[k] == a[i] {
      var v := a[i];
      assert v in a;
      assert v in b;
    }
    if a != [] {
      var k :| 0 <= k < |b| && b[k] == a[0];
    }
  }

  /** A request the library has validated always has a policy, and it is the one the library selected. */
  lemma ValidatedJobHasItsPolicy(values: Option<Attribute>, col: Option<Attribute>, defaults: Option<Attribute>)
    requires Validated(values, col) && (values.Some? || col.Some?)
    ensures PolicyOf(values, col, defaults) ==
      Some(PolicyOfSelected(Selected(if values.Some? then values.value else col.value)))
  {
    if values.Some? {
      FoldsAgree(values.value.values);
    }
  }

  /** A printer's stored defaults, in both representations. */
  class Defaults {
    var enums: Option<Attribute>
    var col: Option<Attribute>

    /** Both representations change together: each alone, and both together, read back as the value that was set, and
        give a job without a selection the policy that selecting the value would; any other value reads as none. */
    method SetTrimDefault(value: int)
      modifies this
      ensures enums == Some(Enums([value]))
      ensures value == 3 ==> col == Some(NoValue)
      ensures value == 11 ==> col == Some(Collections([[Member("finishing-template", true, ["trim"])]]))
      ensures value == 60 ==> col == Some(Collections([[Member("finishing-template", true, ["trim-after-pages"])]]))
      ensures value == 63 ==> col == Some(Collections([[Member("finishing-template", true, ["trim-after-job"])]]))
      ensures TrimDefault(enums, col) == if value in ENUMS then value else -1
      ensures value in ENUMS ==>
        && TrimDefault(enums, None) == TrimDefault(None, col) == value
        && PolicyOf(None, None, enums) == PolicyOf(None, col, None) == Some(PolicyOfSelected(value))
    {
      enums, col := None, None;
      enums := Some(Enums([value]));
      if value == 3 {
        col := Some(NoValue);
      } else {
        col := Some(Collections([[Member(TEMPLATE, true, [TemplateOfEnum(value)])]]));
      }
      if value in ENUMS {
        DefaultReadsBack(value, enums.value, col.value);
      } else {
        assert [value][0] !in ENUMS;
      }
    }
  }

  /** Trim enums 11 and 60 are aliases. */
  predicate SameTrim(a: int, b: int) {
    (if a == 11 then 60 else a) == (if b == 11 then 60 else b)
  }

  /** The default two given representations stand for, or -1 when they are invalid or disagree. */
  function TrimDefault(enums: Option<Attribute>, col: Option<Attribute>): int {
    var a := if enums.Some? then Selected(enums.value) else -1;
    var b := if col.Some? then Selected(col.value) else -1;
    if enums.Some? && !enums.value.Enums? then -1
    else if col.Some? && !col.value.Collections? && !col.value.NoValue? then -1
    else if (enums.Some? && a <= 0) || (col.Some? && b <= 0) then -1
    else if enums.Some? && col.Some? && !SameTrim(a, b) then -1
    else if enums.Some? then a else b
  }

  /** The two representations together stand for a default when they agree, 11 and 60 being the same trim, and for none
      otherwise. */
  lemma DefaultsAgree(value: int, template: string)
    requires value in {3, 11, 60, 63} && template in ["trim", "trim-after-pages", "trim-after-job", "ptouch-chain"]
    ensures var col := Some(Collections([[Member("finishing-template", true, [template])]]));
      TrimDefault(Some(Enums([value])), col) ==
        if value in {11, 60} && template in ["trim", "trim-after-pages"] then value
        else if value == 63 && template == "trim-after-job" then 63
        else -1
    ensures TrimDefault(Some(Enums([value])), Some(NoValue)) == if value == 3 then 3 else -1
  {
    var cols := [[Member(TEMPLATE, true, [template])]];
    assert [value][0] == value;
    assert cols[0][0] == Member(TEMPLATE, true, [template]);
    assert FindMember(cols[0], TEMPLATE) == Some(cols[0][0]);
  }

  /** A stored default reads back as itself through either representation or both, and gives a job without a
      selection the policy that selecting it would give. */
  lemma DefaultReadsBack(value: int, enums: Attribute, col: Attribute)
    requires value in ENUMS && enums == Enums([value])
    requires col == if value == 3 then NoValue else Collections([[Member(TEMPLATE, true, [TemplateOfEnum(value)])]])
    ensures TrimDefault(Some(enums), Some(col)) == value
    ensures TrimDefault(Some(enums), None) == TrimDefault(None, Some(col)) == value
    ensures PolicyOf(None, None, Some(enums)) == PolicyOf(Some(enums), None, None) == PolicyOf(None, Some(col), None)
      == Some(PolicyOfSelected(value))
  {
    var v := [value];
    assert v[0] == value;
    FoldsAgree(v);
    if value != 3 {
      var cols := col.cols;
      assert cols[0][0] == Member(TEMPLATE, true, [TemplateOfEnum(value)]);
      assert FindMember(cols[0], TEMPLATE) == Some(cols[0][0]);
    }
  }
}
