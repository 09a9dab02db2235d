/**
 * The agent's overlay layer manager. A `Layer` is a value: its methods take their receiver by
 * value, so the level arithmetic they do is local and the caller's `Layer` never changes. Each
 * method lists the external commands it runs; a command is recorded as exec sees it, the
 * program name and the white-space separated words of its argument string.
 */
module Layers {

  import opened GoStrings

  datatype Layer = Layer(level: int, RootDir: string, rootLayer: int)

  /** One external command: its name and the argument vector exec receives. */
  datatype Command = Command(name: string, args: seq<string>)

  /** What filepath.Glob("/data/o1*") gives back: an error or the matching paths. */
  datatype GlobResult = GlobFailed | Globbed(matches: seq<string>)

  const LayerGlob := "/data/o1*"

  /** utils.Run: runs `command` with its argument string split by strings.Fields. */
  function Run(command: string, args: string): Command {
    Command(command, Fields(args))
  }

  function UpperDir(n: int): string { "/data/u" + IntToString(n) }
  function WorkDir(n: int): string { "/data/w" + IntToString(n) }
  function MergedDir(n: int): string { "/data/o1" + IntToString(n) }

  /** The overlay mount option: lower layers `:`-joined, then the upper and work directories. */
  function OverlayOption(lowers: seq<string>, n: int): string {
    "lowerdir=" + Join(lowers, ':') + ",upperdir=" + UpperDir(n) + ",workdir=" + WorkDir(n)
  }

  // ---------------------------------------------------------------------------------------
  // The argument vectors the commands receive, written independently of the format strings.

  function MkdirCommand(n: int): Command {
    Command("mkdir", ["-p", UpperDir(n), WorkDir(n), MergedDir(n)])
  }

  function OverlayMountCommand(lowers: seq<string>, n: int): Command {
    Command("mount", ["-t", "overlay", "overlay", "-o1"] + Fields(OverlayOption(lowers, n)) + [MergedDir(n)])
  }

  function UnmountRootCommand(root: string): Command {
    Command("umount", ["-l"] + Fields(root))
  }

  function BindRootCommand(n: int, root: string): Command {
    Command("mount", ["--bind", MergedDir(n)] + Fields(root))
  }

  /** What Init runs for the new level `n`: create its directories, mount its overlay. */
  function InitPlan(lowers: seq<string>, n: int): seq<Command> {
    [MkdirCommand(n), OverlayMountCommand(lowers, n)]
  }

  /** What CreateLayer runs for the new level `n`: Init's two steps, then re-point the root. */
  function CreateLayerPlan(lowers: seq<string>, n: int, root: string): seq<Command> {
    InitPlan(lowers, n) + [UnmountRootCommand(root), BindRootCommand(n, root)]
  }

  // ---------------------------------------------------------------------------------------
  // The argument strings handed to utils.Run, spelled as the source's format strings.

  /** "-p " + "/data/u%d /data/w%d /data/o1%d" (CreateLayer). */
  function MkdirArgs(n: int): string {
    Spaced("-p", Spaced(UpperDir(n), Spaced(WorkDir(n), MergedDir(n))))
  }

  /** "-p " + " /data/u%d /data/w%d /data/o1%d" (Init: two spaces after -p). */
  function InitMkdirArgs(n: int): string {
    Spaced("-p", Spaced("", Spaced(UpperDir(n), Spaced(WorkDir(n), MergedDir(n)))))
  }

  /** "-t " + "overlay overlay -o1 lowerdir=%s,upperdir=/data/u%d,workdir=/data/w%d /data/o1%d". */
  function MountArgs(lowers: seq<string>, n: int): string {
    Spaced("-t", Spaced("overlay", Spaced("overlay", Spaced("-o1", Spaced(OverlayOption(lowers, n), MergedDir(n))))))
  }

  /** "-l " + RootDir. */
  function UmountArgs(root: string): string {
    Spaced("-l", root)
  }

  /** "--bind " + "/data/o1%d %s". */
  function BindArgs(n: int, root: string): string {
    Spaced("--bind", Spaced(MergedDir(n), root))
  }

  // ---------------------------------------------------------------------------------------
  // From the argument strings to the argument vectors.

  lemma NoSpaceConcat(a: string, b: string)
    requires NoSpace(a) && NoSpace(b)
    ensures NoSpace(a + b)
  {
    forall i | 0 <= i < |a + b| ensures !IsSpace((a + b)[i]) {
      if i >= |a| { assert (a + b)[i] == b[i - |a|]; }
    }
  }

  lemma DirsAreWords(n: int)
    ensures NoSpace(UpperDir(n)) && UpperDir(n) != []
    ensures NoSpace(WorkDir(n)) && WorkDir(n) != []
    ensures NoSpace(MergedDir(n)) && MergedDir(n) != []
  {
    NoSpaceConcat("/data/u", IntToString(n));
    NoSpaceConcat("/data/w", IntToString(n));
    NoSpaceConcat("/data/o1", IntToString(n));
  }

  lemma {:induction false} DirListFields(n: int)
    ensures Fields(Spaced(UpperDir(n), Spaced(WorkDir(n), MergedDir(n))))
         == [UpperDir(n), WorkDir(n), MergedDir(n)]
  {
    DirsAreWords(n);
    FieldsSpaceConcat(UpperDir(n), Spaced(WorkDir(n), MergedDir(n)));
    FieldsSpaceConcat(WorkDir(n), MergedDir(n));
    FieldsOfWord(UpperDir(n));
    FieldsOfWord(WorkDir(n));
    FieldsOfWord(MergedDir(n));
  }

  lemma {:induction false} MkdirFields(n: int)
    ensures Fields(MkdirArgs(n)) == MkdirCommand(n).args
  {
    FieldsSpaceConcat("-p", Spaced(UpperDir(n), Spaced(WorkDir(n), MergedDir(n))));
    FieldsOfWord("-p");
    DirListFields(n);
  }

  /** The doubled space in Init's argument string makes no difference to the words. */
  lemma {:induction false} InitMkdirFields(n: int)
    ensures Fields(InitMkdirArgs(n)) == MkdirCommand(n).args
  {
    var d := Spaced(UpperDir(n), Spaced(WorkDir(n), MergedDir(n)));
    FieldsSpaceConcat("-p", Spaced("", d));
    FieldsSpaceConcat("", d);
    assert Fields("") == [];
    FieldsOfWord("-p");
    DirListFields(n);
  }

  lemma {:induction false} MountFields(lowers: seq<string>, n: int)
    ensures Fields(MountArgs(lowers, n)) == OverlayMountCommand(lowers, n).args
  {
    var opt, o := OverlayOption(lowers, n), MergedDir(n);
    var t4 := Spaced(opt, o);
    DirsAreWords(n);
    FieldsSpaceConcat(opt, o);
    FieldsOfWord(o);
    var f4 := Fields(opt) + [o];
    assert Fields(t4) == f4;
    var t3 := Spaced("-o1", t4);
    FieldsWordThen("-o1", t4);
    var t2 := Spaced("overlay", t3);
    FieldsWordThen("overlay", t3);
    var t1 := Spaced("overlay", t2);
    FieldsWordThen("overlay", t2);
    FieldsWordThen("-t", t1);
    assert Fields(MountArgs(lowers, n)) == ["-t"] + (["overlay"] + (["overlay"] + (["-o1"] + f4)));
  }

  lemma {:induction false} UmountFields(root: string)
    ensures Fields(UmountArgs(root)) == UnmountRootCommand(root).args
  {
    FieldsSpaceConcat("-l", root);
    FieldsOfWord("-l");
  }

  lemma {:induction false} BindFields(n: int, root: string)
    ensures Fields(BindArgs(n, root)) == BindRootCommand(n, root).args
  {
    var o := MergedDir(n);
    DirsAreWords(n);
    FieldsWordThen(o, root);
    FieldsWordThen("--bind", Spaced(o, root));
    assert ["--bind"] + ([o] + Fields(root)) == ["--bind", o] + Fields(root);
  }

  // ---------------------------------------------------------------------------------------
  // The layer operations

  /**
   * Layer.CreateLayer: moves to the next level, globs the existing layers, creates the level's
   * directories, mounts its overlay over the globbed layers, unmounts the root and binds the new
   * overlay onto it. A failed glob stops before any command. Command failures are only logged,
   * so a successful glob always reports true.
   */
  method CreateLayer(l: Layer, glob: GlobResult) returns (ok: bool, issued: seq<Command>)
    ensures ok <==> glob.Globbed?
    ensures glob.GlobFailed? ==> issued == []
    ensures glob.Globbed? ==> issued == CreateLayerPlan(glob.matches, l.level + 1, l.RootDir)
    ensures glob.Globbed? ==> |issued| == 4 && issued[3].args[1] == issued[1].args[|issued[1].args| - 1]
  {
    var layer := l;
    layer := layer.(level := layer.level + 1);
    if glob.GlobFailed? {
      return false, [];
    }
    var lowLayers := glob.matches;
    var n := layer.level;
    issued := [];
    issued := issued + [Run("mkdir", MkdirArgs(n))];
    issued := issued + [Run("mount", MountArgs(lowLayers, n))];
    issued := issued + [Run("umount", UmountArgs(layer.RootDir))];
    issued := issued + [Run("mount", BindArgs(n, layer.RootDir))];
    MkdirFields(n);
    MountFields(lowLayers, n);
    UmountFields(layer.RootDir);
    BindFields(n, layer.RootDir);
    ok := true;
  }

  /**
   * Layer.Init: counts the existing layers as the root layer, takes the level above it, creates
   * that level's directories and mounts its overlay. It neither unmounts nor binds the root.
   */
  method Init(l: Layer, glob: GlobResult) returns (ok: bool, issued: seq<Command>)
    ensures ok <==> glob.Globbed?
    ensures glob.GlobFailed? ==> issued == []
    ensures glob.Globbed? ==> issued == InitPlan(glob.matches, |glob.matches| + 1)
  {
    var layer := l;
    if glob.GlobFailed? {
      return false, [];
    }
    var lowLayers := glob.matches;
    layer := layer.(rootLayer := |lowLayers|);
    layer := layer.(level := layer.rootLayer + 1);
    var n := layer.level;
    issued := [];
    issued := issued + [Run("mkdir", InitMkdirArgs(n))];
    issued := issued + [Run("mount", MountArgs(lowLayers, n))];
    InitMkdirFields(n);
    MountFields(lowLayers, n);
    ok := true;
  }

  /** Layer.Finish: only logs; it reports true and runs nothing. */
  method Finish(l: Layer) returns (ok: bool, issued: seq<Command>)
    ensures ok && issued == []
  {
    ok, issued := true, [];
  }

  // ---------------------------------------------------------------------------------------
  // Properties of the plans

  /** Globbed paths without white space reach the overlay mount as one option word. */
  lemma OverlayOptionIsOneWord(lowers: seq<string>, n: int)
    requires forall i :: 0 <= i < |lowers| ==> NoSpace(lowers[i])
    ensures OverlayMountCommand(lowers, n).args
         == ["-t", "overlay", "overlay", "-o1", OverlayOption(lowers, n), MergedDir(n)]
  {
    OverlayOptionNoSpace(lowers, n);
    FieldsOfWord(OverlayOption(lowers, n));
  }

  lemma OverlayOptionNoSpace(lowers: seq<string>, n: int)
    requires forall i :: 0 <= i < |lowers| ==> NoSpace(lowers[i])
    ensures OverlayOption(lowers, n) != [] && NoSpace(OverlayOption(lowers, n))
  {
    JoinNoSpace(lowers);
    DirsAreWords(n);
    var j := Join(lowers, ':');
    NoSpaceConcat("lowerdir=", j);
    NoSpaceConcat("lowerdir=" + j, ",upperdir=");
    NoSpaceConcat("lowerdir=" + j + ",upperdir=", UpperDir(n));
    NoSpaceConcat("lowerdir=" + j + ",upperdir=" + UpperDir(n), ",workdir=");
    NoSpaceConcat("lowerdir=" + j + ",upperdir=" + UpperDir(n) + ",workdir=", WorkDir(n));
  }

  lemma {:induction false} JoinNoSpace(parts: seq<string>)
    requires forall i :: 0 <= i < |parts| ==> NoSpace(parts[i])
    ensures NoSpace(Join(parts, ':'))
    decreases |parts|
  {
    if |parts| > 1 {
      JoinNoSpace(parts[1..]);
      NoSpaceConcat(parts[0], [':']);
      NoSpaceConcat(parts[0] + [':'], Join(parts[1..], ':'));
    }
  }

  /** The lower directories named in the overlay option are the globbed paths, in glob order. */
  lemma LowerDirsInGlobOrder(lowers: seq<string>, n: int)
    requires |lowers| >= 1 && SeparatorFree(lowers, ':')
    ensures exists j :: OverlayOption(lowers, n) == "lowerdir=" + j + ",upperdir=" + UpperDir(n) + ",workdir=" + WorkDir(n)
                        && Split(j, ':') == lowers
  {
    SplitJoin(lowers, ':');
    assert OverlayOption(lowers, n) == "lowerdir=" + Join(lowers, ':') + ",upperdir=" + UpperDir(n) + ",workdir=" + WorkDir(n);
  }

  /**
   * With a root path that is one word, CreateLayer from level k unmounts exactly that root and
   * binds onto it the overlay it has just mounted at level k + 1.
   */
  lemma CreateLayerRebindsRoot(lowers: seq<string>, k: int, root: string)
    requires root != [] && NoSpace(root)
    ensures var plan := CreateLayerPlan(lowers, k + 1, root);
            && plan[0] == Command("mkdir", ["-p", "/data/u" + IntToString(k + 1), "/data/w" + IntToString(k + 1),
                                            "/data/o1" + IntToString(k + 1)])
            && plan[2] == Command("umount", ["-l", root])
            && plan[3] == Command("mount", ["--bind", "/data/o1" + IntToString(k + 1), root])
  {
    FieldsOfWord(root);
  }

  /** Init's level is one above the number of existing layers; on an empty /data that is 1. */
  lemma InitOnEmptyDataIsLevelOne()
    ensures InitPlan([], 0 + 1)[0] == Command("mkdir", ["-p", "/data/u1", "/data/w1", "/data/o11"])
  {
    assert IntToString(1) == "1";
    assert UpperDir(1) == "/data/u1" && WorkDir(1) == "/data/w1" && MergedDir(1) == "/data/o11";
  }
}
