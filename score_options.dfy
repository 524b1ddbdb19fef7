/**
 * The named options of a score (ImoScore's option collection): lookup by
 * name, update-or-append setters, and the default option table
 * (src/internal_model/lomse_internal_model.cpp).
 */
module ScoreOptions {
  import opened Wrappers

  /** ImoOptionInfo::k_boolean, k_number_long, k_number_float */
  datatype OptionType = Boolean | NumberLong | NumberFloat

  /**
   * ImoOptionInfo: a name, a declared type and one slot per value type;
   * a setter writes its own slot and leaves the type alone.
   */
  datatype OptionInfo = OptionInfo(name: string, kind: OptionType, boolValue: bool, longValue: int, floatValue: real)

  /** A value passed to one of the three setters. */
  datatype OptionValue = BoolValue(b: bool) | LongValue(l: int) | FloatValue(f: real)

  function KindOf(v: OptionValue): OptionType
  {
    match v
    case BoolValue(_) => Boolean
    case LongValue(_) => NumberLong
    case FloatValue(_) => NumberFloat
  }

  /** set_bool_value / set_long_value / set_float_value on an option. */
  function SetValue(o: OptionInfo, v: OptionValue): OptionInfo
  {
    match v
    case BoolValue(b) => o.(boolValue := b)
    case LongValue(l) => o.(longValue := l)
    case FloatValue(f) => o.(floatValue := f)
  }

  /** The slot of an option that a value of the given type is read from. */
  function ValueOf(o: OptionInfo, kind: OptionType): OptionValue
  {
    match kind
    case Boolean => BoolValue(o.boolValue)
    case NumberLong => LongValue(o.longValue)
    case NumberFloat => FloatValue(o.floatValue)
  }

  /**
   * A newly made option with the given name, the type of the value and the
   * value. The unused slots of a fresh ImoOptionInfo are not part of the
   * model and are taken as false / 0 / 0.0.
   */
  function NewOption(name: string, v: OptionValue): (o: OptionInfo)
    ensures o.name == name && o.kind == KindOf(v) && ValueOf(o, KindOf(v)) == v
  {
    SetValue(OptionInfo(name, KindOf(v), false, 0, 0.0), v)
  }

  /** get_option: the first option with the given name. */
  function FindOption(opts: seq<OptionInfo>, name: string): (r: Option<nat>)
    ensures r.Some? ==> r.value < |opts| && opts[r.value].name == name
                        && forall j :: 0 <= j < r.value ==> opts[j].name != name
    ensures r.None? ==> forall j :: 0 <= j < |opts| ==> opts[j].name != name
  {
    if opts == [] then None
    else if opts[0].name == name then Some(0)
    else match FindOption(opts[1..], name)
      case None => None
      case Some(k) => Some(k + 1)
  }

  /** The options after set_bool_option / set_long_option / set_float_option(name, v). */
  function Upserted(opts: seq<OptionInfo>, name: string, v: OptionValue): seq<OptionInfo>
  {
    match FindOption(opts, name)
    case Some(k) => opts[k := SetValue(opts[k], v)]
    case None => opts + [NewOption(name, v)]
  }

  /** When the name is found, only that option's slot for the value changes and the count stays. */
  lemma UpsertExisting(opts: seq<OptionInfo>, name: string, v: OptionValue)
    requires FindOption(opts, name).Some?
    ensures var k := FindOption(opts, name).value;
            var r := Upserted(opts, name, v);
            |r| == |opts|
            && r[k].name == opts[k].name && r[k].kind == opts[k].kind
            && ValueOf(r[k], KindOf(v)) == v
            && (forall kind :: kind != KindOf(v) ==> ValueOf(r[k], kind) == ValueOf(opts[k], kind))
            && (forall j :: 0 <= j < |opts| && j != k ==> r[j] == opts[j])
  {
  }

  /** When the name is missing, exactly one option with that name, type and value is appended. */
  lemma UpsertMissing(opts: seq<OptionInfo>, name: string, v: OptionValue)
    requires FindOption(opts, name).None?
    ensures var r := Upserted(opts, name, v);
            |r| == |opts| + 1 && r[..|opts|] == opts
            && r[|opts|].name == name && r[|opts|].kind == KindOf(v) && ValueOf(r[|opts|], KindOf(v)) == v
  {
    assert (opts + [NewOption(name, v)])[..|opts|] == opts;
  }

  /** After a setter, get_option(name) finds an option holding the new value. */
  lemma {:induction false} UpsertThenFind(opts: seq<OptionInfo>, name: string, v: OptionValue)
    ensures var r := Upserted(opts, name, v);
            FindOption(r, name).Some? && ValueOf(r[FindOption(r, name).value], KindOf(v)) == v
  {
    var r := Upserted(opts, name, v);
    match FindOption(opts, name)
    case Some(k) =>
      assert r[k].name == name;
      assert forall j :: 0 <= j < k ==> r[j] == opts[j];
      assert FindOption(r, name) == Some(k) by {
        FindOptionFirst(r, name, k);
      }
    case None =>
      assert r[|opts|].name == name;
      assert forall j :: 0 <= j < |opts| ==> r[j] == opts[j];
      FindOptionFirst(r, name, |opts|);
  }

  /** get_option stops at the first matching name. */
  lemma {:induction false} FindOptionFirst(opts: seq<OptionInfo>, name: string, k: nat)
    requires k < |opts| && opts[k].name == name
    requires forall j :: 0 <= j < k ==> opts[j].name != name
    ensures FindOption(opts, name) == Some(k)
  {
    if k > 0 {
      FindOptionFirst(opts[1..], name, k - 1);
    }
  }

  /** Setting one option does not change what get_option finds for another name. */
  lemma UpsertKeepsOthers(opts: seq<OptionInfo>, name: string, v: OptionValue, other: string)
    requires other != name
    ensures var r := Upserted(opts, name, v);
            FindOption(r, other) == FindOption(opts, other)
            && (FindOption(opts, other).Some? ==> r[FindOption(r, other).value] == opts[FindOption(opts, other).value])
  {
    var r := Upserted(opts, name, v);
    assert forall j :: 0 <= j < |opts| ==> r[j].name == opts[j].name;
    match FindOption(opts, other)
    case Some(k) =>
      FindOptionFirst(r, other, k);
    case None =>
      assert forall j :: 0 <= j < |r| ==> r[j].name != other;
  }

  // ---------------------------------------------------------------------
  // Default options
  // ---------------------------------------------------------------------

  /** k_spacing_proportional (its numeric value lives in a header that is not part of this model). */
  const SpacingProportional: int := 1

  const BoolDefaults: seq<OptionInfo> := [
    NewOption("Score.FillPageWithEmptyStaves", BoolValue(false)),
    NewOption("StaffLines.StopAtFinalBarline", BoolValue(true)),
    NewOption("Score.JustifyFinalBarline", BoolValue(false)),
    NewOption("StaffLines.Hide", BoolValue(false)),
    NewOption("Staff.DrawLeftBarline", BoolValue(true))
  ]

  const LongDefaults: seq<OptionInfo> := [
    NewOption("Staff.UpperLegerLines.Displacement", LongValue(0)),
    NewOption("Render.SpacingMethod", LongValue(SpacingProportional)),
    NewOption("Render.SpacingValue", LongValue(15))
  ]

  const FloatDefaults: seq<OptionInfo> := [
    NewOption("Render.SpacingFactor", FloatValue(0.547))
  ]

  /** The options set_defaults_for_options appends: booleans, then longs, then floats. */
  const DefaultOptions: seq<OptionInfo> := BoolDefaults + LongDefaults + FloatDefaults

  /** The default spacing settings: proportional spacing, factor 0.547, fixed value 15 tenths. */
  lemma DefaultSpacing()
    ensures FindOption(DefaultOptions, "Render.SpacingFactor") == Some(8)
    ensures DefaultOptions[8] == OptionInfo("Render.SpacingFactor", NumberFloat, false, 0, 0.547)
    ensures FindOption(DefaultOptions, "Render.SpacingMethod") == Some(6)
    ensures DefaultOptions[6].longValue == SpacingProportional
    ensures FindOption(DefaultOptions, "Render.SpacingValue") == Some(7)
    ensures DefaultOptions[7].longValue == 15
  {
    var d := DefaultOptions;
    assert forall j :: 0 <= j < 8 ==> d[j].name != "Render.SpacingFactor";
    FindOptionFirst(d, "Render.SpacingFactor", 8);
    assert forall j :: 0 <= j < 6 ==> d[j].name != "Render.SpacingMethod";
    FindOptionFirst(d, "Render.SpacingMethod", 6);
    assert forall j :: 0 <= j < 7 ==> d[j].name != "Render.SpacingValue";
    FindOptionFirst(d, "Render.SpacingValue", 7);
  }

  class ImoScore {
    var options: seq<OptionInfo>

    /** A new score holds exactly the default options. */
    constructor ()
      ensures options == DefaultOptions
    {
      options := [];
      new;
      SetDefaultsForOptions();
    }

    /** get_option */
    method GetOption(name: string) returns (r: Option<nat>)
      ensures r == FindOption(options, name)
    {
      var it := 0;
      while it < |options|
        invariant 0 <= it <= |options|
        invariant forall j :: 0 <= j < it ==> options[j].name != name
      {
        if options[it].name == name {
          FindOptionFirst(options, name, it);
          return Some(it);
        }
        it := it + 1;
      }
      r := None;
    }

    /** The shared body of the three setters: update the found option's slot, or append a new option. */
    method SetOption(name: string, v: OptionValue)
      modifies this
      ensures options == Upserted(old(options), name, v)
    {
      var pOpt := GetOption(name);
      if pOpt.Some? {
        options := options[pOpt.value := SetValue(options[pOpt.value], v)];
      } else {
        options := options + [NewOption(name, v)];
      }
    }

    /** set_float_option */
    method SetFloatOption(name: string, value: real)
      modifies this
      ensures options == Upserted(old(options), name, FloatValue(value))
    {
      SetOption(name, FloatValue(value));
    }

    /** set_bool_option */
    method SetBoolOption(name: string, value: bool)
      modifies this
      ensures options == Upserted(old(options), name, BoolValue(value))
    {
      SetOption(name, BoolValue(value));
    }

    /** set_long_option */
    method SetLongOption(name: string, value: int)
      modifies this
      ensures options == Upserted(old(options), name, LongValue(value))
    {
      SetOption(name, LongValue(value));
    }

    /** set_defaults_for_options: appends the three default tables in order. */
    method SetDefaultsForOptions()
      modifies this
      ensures options == old(options) + DefaultOptions
    {
      var i := 0;
      while i < |BoolDefaults|
        invariant 0 <= i <= |BoolDefaults|
        invariant options == old(options) + BoolDefaults[..i]
      {
        options := options + [BoolDefaults[i]];
        assert BoolDefaults[..i + 1] == BoolDefaults[..i] + [BoolDefaults[i]];
        i := i + 1;
      }
      i := 0;
      while i < |LongDefaults|
        invariant 0 <= i <= |LongDefaults|
        invariant options == old(options) + BoolDefaults + LongDefaults[..i]
      {
        options := options + [LongDefaults[i]];
        assert LongDefaults[..i + 1] == LongDefaults[..i] + [LongDefaults[i]];
        i := i + 1;
      }
      i := 0;
      while i < |FloatDefaults|
        invariant 0 <= i <= |FloatDefaults|
        invariant options == old(options) + BoolDefaults + LongDefaults + FloatDefaults[..i]
      {
        options := options + [FloatDefaults[i]];
        assert FloatDefaults[..i + 1] == FloatDefaults[..i] + [FloatDefaults[i]];
        i := i + 1;
      }
    }
  }
}
