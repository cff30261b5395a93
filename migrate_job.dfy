/** The copy job of a migration (migrate-job.ts): the command is a chain of
    shell steps joined with " && ", the source claim is mounted read-only at
    /src_vol and the destination claim writable at /dst_vol. */
module MigrateJob {
  import opened Base
  import opened Kube

  const Separator := " && "

  /** `parts.join(" && ")`. */
  function MakeCmd(parts: seq<string>): string
    decreases |parts|
  {
    if |parts| == 0 then "" else if |parts| == 1 then parts[0] else parts[0] + Separator + MakeCmd(parts[1..])
  }

  /** Where part `i` starts in the joined command. */
  function Offset(parts: seq<string>, i: nat): nat
    requires i <= |parts|
    decreases i
  {
    if i == 0 then 0 else Offset(parts, i - 1) + |parts[i - 1]| + |Separator|
  }

  lemma {:induction false} OffsetTail(parts: seq<string>, i: nat)
    requires 0 < i <= |parts|
    ensures Offset(parts, i) == |parts[0]| + |Separator| + Offset(parts[1..], i - 1)
    decreases i
  {
    if i > 1 {
      OffsetTail(parts, i - 1);
    }
  }

  /** The joined command of more than one part is the first part, the
      separator and the rest. */
  lemma MakeCmdUnfold(parts: seq<string>)
    requires |parts| > 1
    ensures MakeCmd(parts) == parts[0] + Separator + MakeCmd(parts[1..])
  {
  }

  /** The joined command ends with the last part. */
  lemma {:induction false} MakeCmdLength(parts: seq<string>)
    requires |parts| > 0
    ensures |MakeCmd(parts)| == Offset(parts, |parts| - 1) + |parts[|parts| - 1]|
    decreases |parts|
  {
    if |parts| > 1 {
      MakeCmdUnfold(parts);
      MakeCmdLength(parts[1..]);
      OffsetTail(parts, |parts| - 1);
    }
  }

  /** Part `i` sits at `Offset(parts, i)`. */
  lemma {:induction false} MakeCmdPart(parts: seq<string>, i: nat)
    requires i < |parts|
    ensures Offset(parts, i) + |parts[i]| <= |MakeCmd(parts)|
      && MakeCmd(parts)[Offset(parts, i)..Offset(parts, i) + |parts[i]|] == parts[i]
    decreases |parts|
  {
    if |parts| > 1 {
      var head := parts[0] + Separator;
      var rest := MakeCmd(parts[1..]);
      MakeCmdUnfold(parts);
      if i == 0 {
        assert MakeCmd(parts)[..|parts[0]|] == parts[0];
      } else {
        MakeCmdPart(parts[1..], i - 1);
        OffsetTail(parts, i);
        var a := Offset(parts[1..], i - 1);
        var b := a + |parts[i]|;
        assert (head + rest)[|head| + a..|head| + b] == rest[a..b];
      }
    }
  }

  /** The separator follows every part but the last. */
  lemma {:induction false} MakeCmdSeparator(parts: seq<string>, i: nat)
    requires i + 1 < |parts|
    ensures Offset(parts, i + 1) <= |MakeCmd(parts)|
      && MakeCmd(parts)[Offset(parts, i) + |parts[i]|..Offset(parts, i + 1)] == Separator
    decreases |parts|
  {
    var head := parts[0] + Separator;
    var rest := MakeCmd(parts[1..]);
    MakeCmdUnfold(parts);
    if i == 0 {
      assert Offset(parts, 1) == |head|;
      assert (head + rest)[|parts[0]|..|head|] == Separator;
    } else {
      MakeCmdSeparator(parts[1..], i - 1);
      OffsetTail(parts, i);
      OffsetTail(parts, i + 1);
      var a := Offset(parts[1..], i - 1) + |parts[i]|;
      var b := Offset(parts[1..], i);
      assert (head + rest)[|head| + a..|head| + b] == rest[a..b];
    }
  }

  /** The joined command is the parts in order, each followed by the separator
      except the last: part `i` sits at `Offset(parts, i)`, the separator right
      after it, and nothing else is added. */
  lemma MakeCmdLayout(parts: seq<string>, i: nat)
    requires i < |parts|
    ensures |MakeCmd(parts)| == Offset(parts, |parts| - 1) + |parts[|parts| - 1]|
    ensures Offset(parts, i) + |parts[i]| <= |MakeCmd(parts)|
      && MakeCmd(parts)[Offset(parts, i)..Offset(parts, i) + |parts[i]|] == parts[i]
    ensures i + 1 < |parts| ==>
      Offset(parts, i + 1) <= |MakeCmd(parts)|
      && MakeCmd(parts)[Offset(parts, i) + |parts[i]|..Offset(parts, i + 1)] == Separator
  {
    MakeCmdLength(parts);
    MakeCmdPart(parts, i);
    if i + 1 < |parts| {
      MakeCmdSeparator(parts, i);
    }
  }

  datatype CopyLevel = All | ChainOnly | PrintOnly

  /** The arguments of `makeMigrateJobSpec`; None stands for an argument left out. */
  datatype MigrateJobArgs = MigrateJobArgs(
    srcClaim: string,
    dstClaim: string,
    chain: Option<string>,
    toCopy: Option<CopyLevel>,
    name: Option<string>)

  const DefaultChain := "creditcoin"
  const DefaultCopyLevel := PrintOnly

  function DefaultName(dstClaim: string): string {
    "migrate-pv-" + dstClaim
  }

  /** The sub-directory of the chain that is copied. */
  function Extra(level: CopyLevel): (e: string)
    ensures e != "" <==> level == ChainOnly
    ensures level == ChainOnly ==> e == "paritydb/full/"
  {
    match level
    case All => ""
    case PrintOnly => ""
    case ChainOnly => "paritydb/full/"
  }

  /** The characters `String.prototype.trim` removes. */
  predicate IsJsSpace(c: char) {
    c in {' ', '\t', '\n', '\r', '\U{000B}', '\U{000C}', '\U{00A0}', '\U{1680}', '\U{2000}', '\U{2001}',
          '\U{2002}', '\U{2003}', '\U{2004}', '\U{2005}', '\U{2006}', '\U{2007}', '\U{2008}', '\U{2009}',
          '\U{200A}', '\U{2028}', '\U{2029}', '\U{202F}', '\U{205F}', '\U{3000}', '\U{FEFF}'}
  }

  function TrimStart(s: string): string
    decreases |s|
  {
    if |s| > 0 && IsJsSpace(s[0]) then TrimStart(s[1..]) else s
  }

  function TrimEnd(s: string): string
    decreases |s|
  {
    if |s| > 0 && IsJsSpace(s[|s| - 1]) then TrimEnd(s[..|s| - 1]) else s
  }

  function Trim(s: string): string {
    TrimEnd(TrimStart(s))
  }

  /** `<volume>/chains/<chain>/<extra>`, trimmed. The path begins and ends with
      '/', so trimming never changes it. */
  function ChainPath(volume: string, chain: string, level: CopyLevel): (p: string)
    requires |volume| > 0 && volume[0] == '/'
    ensures p == volume + "/chains/" + chain + "/" + Extra(level)
  {
    var raw := volume + "/chains/" + chain + "/" + Extra(level);
    assert raw[0] == '/';
    assert raw[|raw| - 1] == '/';
    Trim(raw)
  }

  function SrcPath(chain: string, level: CopyLevel): string {
    ChainPath("/src_vol", chain, level)
  }

  function DstPath(chain: string, level: CopyLevel): string {
    ChainPath("/dst_vol", chain, level)
  }

  /** The seven steps of a real copy: install rclone, sync, report sizes. */
  function CopySteps(src: string, dst: string): (steps: seq<string>)
    ensures |steps| == 7
    ensures steps[5] == "rclone sync " + src + " " + dst + " --progress --multi-thread-streams=8"
  {
    [ "apt-get update",
      "apt-get install -y wget unzip",
      "wget https://downloads.rclone.org/v1.64.2/rclone-v1.64.2-linux-amd64.zip",
      "unzip rclone-v1.64.2-linux-amd64.zip",
      "cp rclone-v1.64.2-linux-amd64/rclone /usr/bin/",
      "rclone sync " + src + " " + dst + " --progress --multi-thread-streams=8",
      "du -shxc " + src + " " + dst ]
  }

  /** The two listing steps of a dry run. */
  function PrintSteps(src: string, dst: string): seq<string> {
    ["ls -lhxc " + src, "ls -lhxc " + dst]
  }

  /** The job around a command: one container that mounts volume `src`
      read-only at /src_vol and volume `dst` writable at /dst_vol, the two
      volumes being the source and the destination claims. */
  function CopyJob(name: string, cmd: string, srcClaim: string, dstClaim: string): (j: Job)
    ensures j.name == name
    ensures |j.containers| == 1 && j.containers[0].args == [cmd]
    ensures j.containers[0].command == ["/bin/bash", "-c"]
    ensures ClaimMountedAt(j, "/src_vol") == Some(srcClaim) && ReadOnlyAt(j, "/src_vol") == Some(true)
    ensures ClaimMountedAt(j, "/dst_vol") == Some(dstClaim) && ReadOnlyAt(j, "/dst_vol") == Some(false)
    ensures |j.volumes| == 2 && |j.containers[0].volumeMounts| == 2
    ensures j.ttlSecondsAfterFinished == 60 && j.backoffLimit == 1 && j.restartPolicy == "Never"
  {
    var mounts := [VolumeMount("/src_vol", "src", true), VolumeMount("/dst_vol", "dst", false)];
    var volumes := [JobVolume("src", srcClaim), JobVolume("dst", dstClaim)];
    assert "/src_vol"[1] != "/dst_vol"[1] && "src"[0] != "dst"[0];
    assert mounts[1..] == [mounts[1]] && volumes[1..] == [volumes[1]];
    Job("batch/v1", None, name, 60, 1, [Container("migrate", "debian", ["/bin/bash", "-c"], [cmd], mounts)], "Never", volumes)
  }

  /** The full command for a copy level: a dry run lists both directories,
      any other level copies. */
  function FullCmd(chain: string, level: CopyLevel): string {
    var src := SrcPath(chain, level);
    var dst := DstPath(chain, level);
    if level == PrintOnly then MakeCmd(PrintSteps(src, dst)) else MakeCmd(CopySteps(src, dst))
  }

  function MakeMigrateJobSpec(args: MigrateJobArgs): (j: Job)
    ensures j.name == args.name.GetOr(DefaultName(args.dstClaim))
    ensures |j.containers| == 1
    ensures
      var level := args.toCopy.GetOr(DefaultCopyLevel);
      var src := SrcPath(args.chain.GetOr(DefaultChain), level);
      var dst := DstPath(args.chain.GetOr(DefaultChain), level);
      j.containers[0].args == [MakeCmd(if level == PrintOnly then PrintSteps(src, dst) else CopySteps(src, dst))]
    ensures ClaimMountedAt(j, "/src_vol") == Some(args.srcClaim) && ReadOnlyAt(j, "/src_vol") == Some(true)
    ensures ClaimMountedAt(j, "/dst_vol") == Some(args.dstClaim) && ReadOnlyAt(j, "/dst_vol") == Some(false)
    ensures j.ttlSecondsAfterFinished == 60 && j.backoffLimit == 1 && j.restartPolicy == "Never"
  {
    var chain := args.chain.GetOr(DefaultChain);
    var level := args.toCopy.GetOr(DefaultCopyLevel);
    CopyJob(args.name.GetOr(DefaultName(args.dstClaim)), FullCmd(chain, level), args.srcClaim, args.dstClaim)
  }

  /** With every optional argument left out, the job is a dry run of chain
      `creditcoin` named after the destination claim. */
  lemma Defaults(src: string, dst: string)
    ensures
      var j := MakeMigrateJobSpec(MigrateJobArgs(src, dst, None, None, None));
      j.name == "migrate-pv-" + dst && j.containers[0].args == [FullCmd("creditcoin", PrintOnly)]
  {
    assert DefaultChain == "creditcoin" && DefaultCopyLevel == PrintOnly;
  }

  /** A dry run lists the chain directory on both volumes. */
  lemma DryRun(chain: string)
    ensures FullCmd(chain, PrintOnly)
         == MakeCmd(PrintSteps("/src_vol" + "/chains/" + chain + "/", "/dst_vol" + "/chains/" + chain + "/"))
  {
    assert Extra(PrintOnly) == "";
    assert SrcPath(chain, PrintOnly) == "/src_vol" + "/chains/" + chain + "/";
    assert DstPath(chain, PrintOnly) == "/dst_vol" + "/chains/" + chain + "/";
  }
}
