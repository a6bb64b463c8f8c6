/** The name types of gormplugin/types.go: `gormOption`, the name of one of GORM's own
    callbacks, and `operationStage`, a stage name of this plugin. Both derive the anchor names
    passed to GORM's `Before`/`After` by appending a fixed suffix. */
module GormTypes {
  import opened Wrappers

  const BeforeSuffix := "_before"
  const AfterSuffix := "_after"

  /** `s` without `suffix`, when `s` ends with it: the inverse of appending a suffix. */
  function TrimSuffix(s: string, suffix: string): (r: Option<string>)
    ensures r.Some? <==> |suffix| <= |s| && s[|s| - |suffix|..] == suffix
    ensures r.Some? ==> r.value + suffix == s
  {
    if |suffix| <= |s| && s[|s| - |suffix|..] == suffix then Some(s[..|s| - |suffix|]) else None
  }

  lemma TrimAppended(x: string, suffix: string)
    ensures TrimSuffix(x + suffix, suffix) == Some(x)
  {
    assert (x + suffix)[|x + suffix| - |suffix|..] == suffix;
    assert (x + suffix)[..|x + suffix| - |suffix|] == x;
  }

  /** No name ending in "_after" ends in "_before". */
  lemma AfterNotBefore(x: string)
    ensures TrimSuffix(x + AfterSuffix, BeforeSuffix) == None
  {
    var s := x + AfterSuffix;
    if |BeforeSuffix| <= |s| {
      assert s[|s| - 6] == '_';
      assert s[|s| - |BeforeSuffix|..][1] == s[|s| - 6];
    }
  }

  /** No name ending in "_before" ends in "_after". */
  lemma BeforeNotAfter(x: string)
    ensures TrimSuffix(x + BeforeSuffix, AfterSuffix) == None
  {
    var s := x + BeforeSuffix;
    assert s[|s| - 6] == 'b';
    assert s[|s| - |AfterSuffix|..][0] == s[|s| - 6];
  }

  datatype GormOption = GormOption(value: string)
  {
    /** The conversion back to a plain string; converting that again gives the same option. */
    function String(): (r: string)
      ensures GormOption(r) == this
    {
      value
    }

    function Before(): string
    {
      value + BeforeSuffix
    }

    function After(): string
    {
      value + AfterSuffix
    }
  }

  const GormCreate := GormOption("gorm:create")
  const GormUpdate := GormOption("gorm:update")
  const GormQuery := GormOption("gorm:query")
  const GormDelete := GormOption("gorm:delete")
  const GormRow := GormOption("gorm:row")
  const GormRaw := GormOption("gorm:raw")

  /** GORM's six callback processors, each named after its main callback. */
  datatype Kind = Create | Update | Query | Delete | Row | Raw

  function OptionOf(k: Kind): GormOption
  {
    match k
    case Create => GormCreate
    case Update => GormUpdate
    case Query => GormQuery
    case Delete => GormDelete
    case Row => GormRow
    case Raw => GormRaw
  }

  /** The six option constants are pairwise distinct. */
  lemma OptionsDistinct(a: Kind, b: Kind)
    ensures OptionOf(a) == OptionOf(b) ==> a == b
  {
  }

  /** Trimming the suffix recovers the option from its before- and after-names, and neither
      name ends in the other's suffix. */
  lemma OptionSuffixes(x: GormOption)
    ensures TrimSuffix(x.Before(), BeforeSuffix) == Some(x.String())
    ensures TrimSuffix(x.Before(), AfterSuffix) == None
    ensures TrimSuffix(x.After(), AfterSuffix) == Some(x.String())
    ensures TrimSuffix(x.After(), BeforeSuffix) == None
  {
    TrimAppended(x.value, BeforeSuffix);
    BeforeNotAfter(x.value);
    TrimAppended(x.value, AfterSuffix);
    AfterNotBefore(x.value);
  }

  /** Distinct options have distinct before-names and distinct after-names, and no
      before-name is an after-name. */
  lemma SuffixNamesDistinct(x: GormOption, y: GormOption)
    ensures x.Before() == y.Before() ==> x == y
    ensures x.After() == y.After() ==> x == y
    ensures x.Before() != y.After()
  {
    OptionSuffixes(x);
    OptionSuffixes(y);
  }

  datatype OperationStage = OperationStage(value: string)
  {
    function Name(): (r: string)
      ensures OperationStage(r) == this
    {
      value
    }

    function Before(): string
    {
      value + BeforeSuffix
    }

    function After(): string
    {
      value + AfterSuffix
    }
  }

  lemma StageSuffixes(x: OperationStage)
    ensures TrimSuffix(x.Before(), BeforeSuffix) == Some(x.Name())
    ensures TrimSuffix(x.Before(), AfterSuffix) == None
    ensures TrimSuffix(x.After(), AfterSuffix) == Some(x.Name())
    ensures TrimSuffix(x.After(), BeforeSuffix) == None
  {
    TrimAppended(x.value, BeforeSuffix);
    BeforeNotAfter(x.value);
    TrimAppended(x.value, AfterSuffix);
    AfterNotBefore(x.value);
  }

  lemma StageSuffixNamesDistinct(x: OperationStage, y: OperationStage)
    ensures x.Before() == y.Before() ==> x == y
    ensures x.After() == y.After() ==> x == y
    ensures x.Before() != y.After()
  {
    StageSuffixes(x);
    StageSuffixes(y);
  }

  const StageBeforeCreate := OperationStage("opentracing:before_create")
  const StageAfterCreate := OperationStage("opentracing:after_create")
  const StageBeforeUpdate := OperationStage("opentracing:before_update")
  const StageAfterUpdate := OperationStage("opentracing:after_update")
  const StageBeforeQuery := OperationStage("opentracing:before_query")
  const StageAfterQuery := OperationStage("opentracing:after_query")
  const StageBeforeDelete := OperationStage("opentracing:before_delete")
  const StageAfterDelete := OperationStage("opentracing:after_delete")
  const StageBeforeRow := OperationStage("opentracing:before_row")
  const StageAfterRow := OperationStage("opentracing:after_row")
  const StageBeforeRaw := OperationStage("opentracing:before_raw")
  const StageAfterRaw := OperationStage("opentracing:after_raw")

  const Stages := [StageBeforeCreate, StageAfterCreate, StageBeforeUpdate, StageAfterUpdate,
                   StageBeforeQuery, StageAfterQuery, StageBeforeDelete, StageAfterDelete,
                   StageBeforeRow, StageAfterRow, StageBeforeRaw, StageAfterRaw]

  /** The twelve stage constants are pairwise distinct. */
  lemma StagesDistinct()
    ensures forall i, j :: 0 <= i < j < |Stages| ==> Stages[i] != Stages[j]
  {
  }
}
