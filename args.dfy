/**
 * `normalizeArgs`: rewrites single-dash long options such as `-hda` into the
 * `--hda` form the option parser understands, leaving short flags (`-m`),
 * a lone `-`, `--` options and operands alone.
 */
module Args {

  /**
   * `-name`: starts with `-`, does not start with `--`, and is longer than
   * two characters (so is not a short flag such as `-m`).
   */
  predicate IsSingleDashLong(arg: string) {
    |arg| > 2 && arg[0] == '-' && arg[1] != '-'
  }

  /** One token: `-name` becomes `--name`, everything else is kept. */
  function NormalizeArg(arg: string): (r: string)
    ensures IsSingleDashLong(arg) ==> r == "-" + arg
    ensures !IsSingleDashLong(arg) ==> r == arg
    ensures !IsSingleDashLong(r)
  {
    if IsSingleDashLong(arg) then "--" + arg[1..] else arg
  }

  /** The whole token list, mapped token by token in order. */
  function NormalizeArgs(argv: seq<string>): (r: seq<string>)
    ensures |r| == |argv|
    ensures forall i :: 0 <= i < |argv| ==> r[i] == NormalizeArg(argv[i])
  {
    if argv == [] then [] else [NormalizeArg(argv[0])] + NormalizeArgs(argv[1..])
  }

  /** A token is changed exactly when it is a single-dash long option, and then only by its dash. */
  lemma NormalizeArgsRewritesExactly(argv: seq<string>, i: nat)
    requires i < |argv|
    ensures NormalizeArgs(argv)[i] != argv[i] <==> IsSingleDashLong(argv[i])
    ensures IsSingleDashLong(argv[i]) ==> NormalizeArgs(argv)[i] == "--" + argv[i][1..]
  {
  }

  /** No token of a normalized list is a single-dash long option any more. */
  lemma NormalizedHasNoSingleDashLong(argv: seq<string>)
    ensures forall i :: 0 <= i < |argv| ==> !IsSingleDashLong(NormalizeArgs(argv)[i])
  {
  }

  /** Normalizing twice is normalizing once. */
  lemma {:induction false} NormalizeArgsIdempotent(argv: seq<string>)
    ensures NormalizeArgs(NormalizeArgs(argv)) == NormalizeArgs(argv)
  {
    var once := NormalizeArgs(argv);
    var twice := NormalizeArgs(once);
    forall i | 0 <= i < |once|
      ensures twice[i] == once[i]
    {
      assert !IsSingleDashLong(once[i]);
    }
  }

  /** The rewrite on a typical command line: long options gain a dash, `-m`, `-`, `--cdrom` and operands do not. */
  lemma NormalizeArgsExample()
    ensures NormalizeArgs(["-hda", "disk.img", "-m", "1G", "--cdrom", "boot.iso", "-", "-vga-mem"])
         == ["--hda", "disk.img", "-m", "1G", "--cdrom", "boot.iso", "-", "--vga-mem"]
  {
    var argv := ["-hda", "disk.img", "-m", "1G", "--cdrom", "boot.iso", "-", "-vga-mem"];
    var r := NormalizeArgs(argv);
    assert r[0] == "-" + "-hda" == "--hda";
    assert r[7] == "-" + "-vga-mem" == "--vga-mem";
    assert r[4] == "--cdrom";
  }
}
