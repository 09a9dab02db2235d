/**
 * The pure parts of the vendored overlay2 graph driver: option parsing, the chain of lower
 * layers a new layer records, the metadata it reports, the storage-option guard of Create and
 * the constants that bound a layer chain. What the driver reads from disk is an input.
 */
module Overlay2 {

  import opened Wrappers
  import opened GoStrings
  import GoPath

  const DriverName := "overlay2"
  const LinkDir := "l"
  const LowerFile := "lower"
  const MaxDepth := 128
  /** The number of random symbols in a layer's link name. */
  const IdLength := 26
  /** The page size the identifier budget is stated against. */
  const PageSize := 4096
  const KernelCheckOption := "overlay2.override_kernel_check"

  // ---------------------------------------------------------------------------------------
  // parseOptions

  datatype OptionError =
    | NotKeyValue(option: string)   // parsers.ParseKeyValueOpt found no '='
    | UnknownOption(key: string)
    | NotBool(value: string)        // strconv.ParseBool rejected the value

  datatype Options = Options(overrideKernelCheck: bool)

  /**
   * parsers.ParseKeyValueOpt: splits at the first '=' and trims white space off both sides;
   * an option without '=' is an error.
   */
  function ParseKeyValueOpt(opt: string): (r: Result<(string, string), OptionError>)
    ensures r.Err? <==> '=' !in opt
    ensures r.Err? ==> r.error == NotKeyValue(opt)
  {
    var i := IndexOf(opt, '=');
    if i < 0 then Err(NotKeyValue(opt)) else Ok((TrimSpace(opt[..i]), TrimSpace(opt[i + 1..])))
  }

  /** What one option does: the value it sets, or the error parseOptions returns for it. */
  function OptionValue(option: string): Result<bool, OptionError> {
    match ParseKeyValueOpt(option)
    case Err(e) => Err(e)
    case Ok((k, v)) =>
      var key := ToLower(k);
      if key != KernelCheckOption then Err(UnknownOption(key))
      else match ParseBool(v)
        case None => Err(NotBool(v))
        case Some(b) => Ok(b)
  }

  /** An accepted option has a '=', the option's name before it and a boolean after it. */
  lemma OptionAccepted(option: string)
    requires OptionValue(option).Ok?
    ensures '=' in option
    ensures ToLower(ParseKeyValueOpt(option).value.0) == KernelCheckOption
    ensures ParseBool(ParseKeyValueOpt(option).value.1) == Some(OptionValue(option).value)
  {
  }

  /** What each option does, in order. */
  function OptionValues(options: seq<string>): (vs: seq<Result<bool, OptionError>>)
    ensures |vs| == |options| && forall i :: 0 <= i < |options| ==> vs[i] == OptionValue(options[i])
  {
    seq(|options|, i requires 0 <= i < |options| => OptionValue(options[i]))
  }

  /** The options' effects applied from left to right to `o`, stopping at the first error. */
  function Settle(vs: seq<Result<bool, OptionError>>, o: Options): Result<Options, OptionError>
    decreases |vs|
  {
    if vs == [] then Ok(o)
    else match vs[0]
      case Err(e) => Err(e)
      case Ok(b) => Settle(vs[1..], Options(b))
  }

  /**
   * parseOptions: every option must be overlay2.override_kernel_check, in any letter case,
   * with a boolean value, and the options are applied in order from the defaults.
   */
  method ParseOptions(options: seq<string>) returns (r: Result<Options, OptionError>)
    ensures r == Settle(OptionValues(options), Options(false))
  {
    ghost var vs := OptionValues(options);
    var o := Options(false);
    for i := 0 to |options|
      invariant Settle(vs[i..], o) == Settle(vs, Options(false))
    {
      assert vs[i..][1..] == vs[i + 1..];
      var value := ParseOption(options[i]);
      match value
      case Err(e) =>
        return Err(e);
      case Ok(b) =>
        o := o.(overrideKernelCheck := b);
    }
    assert vs[|options|..] == [];
    return Ok(o);
  }

  /** Option `i` is the first refused one, with the error `e`. */
  predicate FirstRefused(vs: seq<Result<bool, OptionError>>, i: nat, e: OptionError) {
    i < |vs| && vs[i] == Err(e) && forall j :: 0 <= j < i ==> vs[j].Ok?
  }

  /**
   * The options are accepted exactly when each one is; then the last one decides the setting
   * and no options keep the default. Otherwise the error is that of the first refused option.
   */
  lemma {:induction false} SettleMeaning(vs: seq<Result<bool, OptionError>>, o: Options)
    ensures Settle(vs, o).Ok? <==> forall i :: 0 <= i < |vs| ==> vs[i].Ok?
    ensures vs == [] ==> Settle(vs, o) == Ok(o)
    ensures Settle(vs, o).Ok? && vs != [] ==> Settle(vs, o).value == Options(vs[|vs| - 1].value)
    ensures Settle(vs, o).Err? ==> exists i: nat :: FirstRefused(vs, i, Settle(vs, o).error)
    decreases |vs|
  {
    if vs != [] {
      var rest := vs[1..];
      match vs[0]
      case Err(e) =>
        assert FirstRefused(vs, 0, e);
      case Ok(b) =>
        SettleMeaning(rest, Options(b));
        assert (forall i :: 0 <= i < |vs| ==> vs[i].Ok?) <==> (forall i :: 0 <= i < |rest| ==> rest[i].Ok?) by {
          forall j | 0 < j < |vs| ensures vs[j] == rest[j - 1] {}
        }
        if rest != [] {
          assert vs[|vs| - 1] == rest[|rest| - 1];
        }
        if Settle(rest, Options(b)).Err? {
          var e := Settle(rest, Options(b)).error;
          var i: nat :| FirstRefused(rest, i, e);
          assert FirstRefused(vs, i + 1, e) by {
            forall j | 0 < j <= i ensures vs[j] == rest[j - 1] {}
          }
        }
    }
  }

  /** parseOptions over the options themselves: the first refused option is the error, the last one decides. */
  lemma ParseOptionsMeaning(options: seq<string>)
    ensures var r := Settle(OptionValues(options), Options(false));
            && (r.Ok? <==> forall i :: 0 <= i < |options| ==> OptionValue(options[i]).Ok?)
            && (options == [] ==> r == Ok(Options(false)))
            && (r.Ok? && options != [] ==> r.value == Options(OptionValue(options[|options| - 1]).value))
            && (r.Err? ==> exists i: nat :: FirstRefused(OptionValues(options), i, r.error))
  {
    SettleMeaning(OptionValues(options), Options(false));
  }

  /** The body of parseOptions' loop for one option. */
  method ParseOption(option: string) returns (r: Result<bool, OptionError>)
    ensures r == OptionValue(option)
  {
    var kv := ParseKeyValueOpt(option);
    if kv.Err? {
      return Err(kv.error);
    }
    var (key, val) := kv.value;
    key := ToLower(key);
    if key == KernelCheckOption {
      var b := ParseBool(val);
      if b.None? {
        return Err(NotBool(val));
      }
      return Ok(b.value);
    } else {
      return Err(UnknownOption(key));
    }
  }

  /** An option "key=value" splits at its '=' when the key has none. */
  lemma KeyValueParts(k: string, v: string)
    requires '=' !in k
    ensures ParseKeyValueOpt(k + "=" + v) == Ok((TrimSpace(k), TrimSpace(v)))
  {
    var o := k + "=" + v;
    IndexOfAfter(k, '=', v);
    assert o[..|k|] == k;
    assert o[|k| + 1..] == v;
  }

  /**
   * "key=value" sets the kernel-check flag exactly when the trimmed key, lowered, is the option's
   * name and the trimmed value is a boolean; any other key is refused by its lowered name.
   */
  lemma OptionOfKeyValue(k: string, v: string)
    requires '=' !in k
    ensures var key := ToLower(TrimSpace(k));
            && (OptionValue(k + "=" + v).Ok? <==> key == KernelCheckOption && ParseBool(TrimSpace(v)).Some?)
            && (OptionValue(k + "=" + v).Ok? ==> OptionValue(k + "=" + v).value == ParseBool(TrimSpace(v)).value)
            && (key != KernelCheckOption ==> OptionValue(k + "=" + v) == Err(UnknownOption(key)))
  {
    KeyValueParts(k, v);
  }

  /** The option's name is matched whatever the letter case of the key. */
  lemma OptionCaseInsensitive(k1: string, k2: string, v: string)
    requires '=' !in k1 && '=' !in k2
    requires ToLower(TrimSpace(k1)) == ToLower(TrimSpace(k2))
    ensures OptionValue(k1 + "=" + v) == OptionValue(k2 + "=" + v)
  {
    KeyValueParts(k1, v);
    KeyValueParts(k2, v);
  }

  /** The upper-case spelling of the name is the option. */
  lemma UpperCaseName()
    ensures ToLower("OVERLAY2.OVERRIDE_KERNEL_CHECK") == KernelCheckOption
  {
  }

  // ---------------------------------------------------------------------------------------
  // getLower

  datatype LowerError = ParentMissing | LinkUnreadable | MaxDepthExceeded

  /** What getLower finds under the parent layer's directory. */
  datatype ParentFiles = ParentFiles(present: bool, link: Option<string>, lower: Option<string>)

  /** The lower entries of a child layer: the parent's own link, then the parent's lower entries. */
  function LowerChain(link: string, parentLower: Option<string>): (lowers: seq<string>)
    ensures |lowers| >= 1
  {
    [GoPath.JoinPath([LinkDir, link])] + (if parentLower.Some? then Split(parentLower.value, ':') else [])
  }

  /**
   * getLower: the ':'-joined lower chain for a child of the parent, or an error when the parent
   * is missing, its link file cannot be read, or the chain would exceed the maximum depth. A
   * lower file that cannot be read counts as absent.
   */
  method GetLower(parent: ParentFiles) returns (r: Result<string, LowerError>)
    ensures !parent.present ==> r == Err(ParentMissing)
    ensures parent.present && parent.link.None? ==> r == Err(LinkUnreadable)
    ensures parent.present && parent.link.Some? ==>
              var lowers := LowerChain(parent.link.value, parent.lower);
              r == if |lowers| > MaxDepth then Err(MaxDepthExceeded) else Ok(Join(lowers, ':'))
  {
    if !parent.present {
      return Err(ParentMissing);
    }
    if parent.link.None? {
      return Err(LinkUnreadable);
    }
    var lowers := [GoPath.JoinPath([LinkDir, parent.link.value])];
    if parent.lower.Some? {
      var parentLowers := Split(parent.lower.value, ':');
      lowers := lowers + parentLowers;
    }
    if |lowers| > MaxDepth {
      return Err(MaxDepthExceeded);
    }
    return Ok(Join(lowers, ':'));
  }

  /** A link name that is a single path element is recorded as "l/" followed by it. */
  lemma ChainStartsWithLink(link: string, parentLower: Option<string>)
    requires GoPath.IsName(link)
    ensures LowerChain(link, parentLower)[0] == "l/" + link
  {
    GoPath.JoinNames(LinkDir, link);
  }

  /**
   * Reading a recorded chain back gives the parent's link followed by the parent's entries in
   * their original order.
   */
  lemma ChainReadsBack(link: string, parentLower: Option<string>)
    requires GoPath.IsName(link) && ':' !in link
    ensures Split(Join(LowerChain(link, parentLower), ':'), ':') == LowerChain(link, parentLower)
  {
    var lowers := LowerChain(link, parentLower);
    ChainStartsWithLink(link, parentLower);
    assert ':' !in lowers[0] by {
      assert lowers[0] == "l/" + link;
    }
    if parentLower.Some? {
      SplitFree(parentLower.value, ':');
    }
    assert SeparatorFree(lowers, ':') by {
      forall i | 0 <= i < |lowers| ensures ':' !in lowers[i] {
        if i > 0 {
          assert lowers[i] == Split(parentLower.value, ':')[i - 1];
        }
      }
    }
    SplitJoin(lowers, ':');
  }

  /** A child's chain is one entry longer than the parent's, so at most 128 layers can be stacked. */
  lemma ChainGrowsByOne(link: string, parentChain: seq<string>)
    requires |parentChain| >= 1 && SeparatorFree(parentChain, ':')
    ensures |LowerChain(link, Some(Join(parentChain, ':')))| == |parentChain| + 1
  {
    SplitJoin(parentChain, ':');
  }

  /** The layer directory for an id: path.Join(home, id). */
  function Dir(home: string, id: string): string {
    GoPath.JoinPath([home, id])
  }

  // ---------------------------------------------------------------------------------------
  // GetMetadata and Create's guard

  datatype MetadataError = StatFailed | LowerDirsFailed(reason: string)

  /**
   * GetMetadata: the work, merged and upper directories of the layer, and its lower directories
   * ':'-joined only when there are any. `dirExists` is the outcome of the os.Stat of the layer
   * directory and `lowerDirs` what getLowerDirs returns.
   */
  function GetMetadata(home: string, id: string, dirExists: bool, lowerDirs: Result<seq<string>, string>)
    : (r: Result<map<string, string>, MetadataError>)
    ensures r.Err? <==> !dirExists || lowerDirs.Err?
    ensures !dirExists ==> r == Err(StatFailed)
    ensures r.Ok? ==> ("LowerDir" in r.value <==> |lowerDirs.value| > 0)
    ensures r.Ok? && |lowerDirs.value| > 0 ==> r.value["LowerDir"] == Join(lowerDirs.value, ':')
    ensures r.Ok? ==> r.value.Keys >= {"WorkDir", "MergedDir", "UpperDir"}
                      && r.value.Keys <= {"WorkDir", "MergedDir", "UpperDir", "LowerDir"}
    ensures r.Ok? ==> r.value["UpperDir"] == GoPath.JoinPath([Dir(home, id), "diff"])
    ensures r.Ok? ==> r.value["WorkDir"] == GoPath.JoinPath([Dir(home, id), "work"])
                      && r.value["MergedDir"] == GoPath.JoinPath([Dir(home, id), "merged"])
  {
    var dir := Dir(home, id);
    if !dirExists then Err(StatFailed)
    else
      var metadata := map["WorkDir" := GoPath.JoinPath([dir, "work"]),
                          "MergedDir" := GoPath.JoinPath([dir, "merged"]),
                          "UpperDir" := GoPath.JoinPath([dir, "diff"])];
      match lowerDirs
      case Err(e) => Err(LowerDirsFailed(e))
      case Ok(dirs) =>
        if |dirs| > 0 then Ok(metadata["LowerDir" := Join(dirs, ':')]) else Ok(metadata)
  }

  const StorageOptError := "--storage-opt is not supported for overlay"

  /** Create's first check: any storage option is refused before the file system is touched. */
  function CheckStorageOpt(storageOpt: map<string, string>): (r: Option<string>)
    ensures r.Some? <==> |storageOpt| != 0
    ensures r.Some? ==> r.value == StorageOptError
  {
    if |storageOpt| != 0 then Some(StorageOptError) else None
  }

  // ---------------------------------------------------------------------------------------
  // The identifier budget

  /** The driver's stated budget: (idLength + len(linkDir) + 1) × maxDepth <= pageSize − 512. */
  lemma IdBudget()
    ensures (IdLength + |LinkDir| + 1) * MaxDepth == 3584 <= PageSize - 512
  {
  }

  /**
   * A chain of the maximum depth, each entry "l/" and a 26-symbol link, is 128 × 29 − 1 = 3711
   * characters once ':'-joined. The budget allows 28 characters per entry, and each entry here
   * takes 28 plus a ':' separator, except the last, so the joined chain is 127 characters over the
   * budget; it still fits in a page.
   */
  lemma FullChainLength(ids: seq<string>)
    requires |ids| == MaxDepth && forall i :: 0 <= i < |ids| ==> |ids[i]| == IdLength
    ensures var chain := seq(|ids|, i requires 0 <= i < |ids| => "l/" + ids[i]);
            |Join(chain, ':')| == 3711 < PageSize
  {
    var chain := seq(|ids|, i requires 0 <= i < |ids| => "l/" + ids[i]);
    JoinLength(chain, ':', IdLength + 2);
  }
}
