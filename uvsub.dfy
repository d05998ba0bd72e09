/**
 * The uvsub apps of pipeline/aws_chiles02/apps_uvsub.py: the names they
 * give measurement sets and tar files, the spectral window DockerUvsub
 * picks for a frequency pair, and the exit codes of the two copy apps as
 * a function of what the filesystem, S3 and tar report.
 */
module Uvsub {
  import opened Wrappers
  import opened Text
  import opened PyArith

  /** '{0}~{1}'.format(min, max) */
  function TildePair(low: int, high: int): string
  {
    IntToString(low) + "~" + IntToString(high)
  }

  /** Different frequency pairs are written differently. */
  lemma TildePairInjective(l1: int, h1: int, l2: int, h2: int)
    requires TildePair(l1, h1) == TildePair(l2, h2)
    ensures l1 == l2 && h1 == h2
  {
    SplitAtFirst(IntToString(l1), IntToString(h1), IntToString(l2), IntToString(h2), '~');
    IntToStringInjective(l1, l2);
    IntToStringInjective(h1, h2);
  }

  /** 'vis_{0}~{1}'.format(min, max): the measurement set CopyUvsubFromS3 extracts and DockerUvsub reads. */
  function VisName(low: int, high: int): string
  {
    "vis_" + TildePair(low, high)
  }

  /** 'uvsub_{0}~{1}'.format(min, max): the measurement set DockerUvsub writes and CopyUvsubToS3 packs. */
  function UvsubStem(low: int, high: int): string
  {
    "uvsub_" + TildePair(low, high)
  }

  /** 'uvsub_{0}~{1}.tar'.format(min, max): the tar file CopyUvsubToS3 uploads. */
  function UvsubTarName(low: int, high: int): (r: string)
    ensures StartsWith(r, UvsubStem(low, high)) && EndsWith(r, ".tar")
  {
    UvsubStem(low, high) + ".tar"
  }

  /** Different frequency pairs read different vis_ sets. */
  lemma VisNameInjective(l1: int, h1: int, l2: int, h2: int)
    requires VisName(l1, h1) == VisName(l2, h2)
    ensures l1 == l2 && h1 == h2
  {
    CancelPrefix("vis_", TildePair(l1, h1), TildePair(l2, h2));
    TildePairInjective(l1, h1, l2, h2);
  }

  /** Different frequency pairs write different uvsub_ sets, and so different tar files. */
  lemma UvsubTarNameInjective(l1: int, h1: int, l2: int, h2: int)
    requires UvsubTarName(l1, h1) == UvsubTarName(l2, h2)
    ensures l1 == l2 && h1 == h2
  {
    var s1, s2 := UvsubStem(l1, h1), UvsubStem(l2, h2);
    assert s1 == (s1 + ".tar")[..|s1|];
    assert |s1| == |s2|;
    assert s2 == (s2 + ".tar")[..|s2|];
    CancelPrefix("uvsub_", TildePair(l1, h1), TildePair(l2, h2));
    TildePairInjective(l1, h1, l2, h2);
  }

  /** No vis_ name is a uvsub_ name: the input and the output of DockerUvsub never collide. */
  lemma VisIsNotUvsub(l1: int, h1: int, l2: int, h2: int)
    ensures VisName(l1, h1) != UvsubStem(l2, h2)
  {
    assert VisName(l1, h1)[0] == 'v' && UvsubStem(l2, h2)[0] == 'u';
  }

  /**
   * int(((int(min) + int(max)) / 2 - 946) / 32) with Python 2 integer
   * division, which floors: the 32 MHz window the pair's midpoint falls in,
   * counting from 946 MHz.
   */
  function SpectralWindow(low: int, high: int): int
  {
    FloorDiv(FloorDiv(low + high, 2) - 946, 32)
  }

  /** The window is w exactly when the sum of the bounds lies in [1892 + 64w, 1956 + 64w). */
  lemma SpectralWindowRange(low: int, high: int, w: int)
    ensures SpectralWindow(low, high) == w <==> 1892 + 64 * w <= low + high < 1956 + 64 * w
  {
    var m := FloorDiv(low + high, 2);
    assert 2 * m <= low + high < 2 * m + 2;
    var q := SpectralWindow(low, high);
    assert 32 * q <= m - 946 < 32 * q + 32;
    if 1892 + 64 * w <= low + high < 1956 + 64 * w {
      assert 32 * w <= m - 946 < 32 * w + 32;
    }
  }

  /** A pair just below 946 MHz lands in window -1, where truncating division would give 0. */
  lemma SpectralWindowBelowBase()
    ensures SpectralWindow(940, 944) == -1
  {
    SpectralWindowRange(940, 944, -1);
  }

  /** Raising either bound never lowers the window. */
  lemma SpectralWindowMonotonic(l1: int, h1: int, l2: int, h2: int)
    requires l1 + h1 <= l2 + h2
    ensures SpectralWindow(l1, h1) <= SpectralWindow(l2, h2)
  {
    var w1, w2 := SpectralWindow(l1, h1), SpectralWindow(l2, h2);
    SpectralWindowRange(l1, h1, w1);
    SpectralWindowRange(l2, h2, w2);
  }

  /**
   * DockerUvsub's command line: the vis_ set under the input drop's path,
   * the output drop's path, the uvsub_ stem, the number of w-projection
   * planes, and the two sky-model terms of the spectral window.
   */
  function UvsubCommand(inputPath: string, outputPath: string, low: int, high: int, wProjectionPlanes: string): string
  {
    var window := IntToString(SpectralWindow(low, high));
    CommandHead(inputPath, low, high)
      + (" /dfms_root" + outputPath + " " + UvsubStem(low, high) + " " + wProjectionPlanes
         + " /opt/chiles02/aws-chiles02/LSM/epoch1gt4k_si_spw_" + window + ".model.tt0"
         + " /opt/chiles02/aws-chiles02/LSM/")
      + ModelTerm(SpectralWindow(low, high), "tt1")
  }

  /** The start of the command: the script and the vis_ set it reads. */
  function CommandHead(inputPath: string, low: int, high: int): string
  {
    "uvsub.sh /dfms_root" + PathJoin(inputPath, VisName(low, high))
  }

  /** A sky-model term file of a spectral window. */
  function ModelTerm(window: int, term: string): string
  {
    "epoch1gt4k_si_spw_" + IntToString(window) + ".model." + term
  }

  /** The command reads the vis_ set of its own pair and ends with the tt1 sky-model term of its window. */
  lemma UvsubCommandShape(inputPath: string, outputPath: string, low: int, high: int, wProjectionPlanes: string)
    ensures StartsWith(UvsubCommand(inputPath, outputPath, low, high, wProjectionPlanes), CommandHead(inputPath, low, high))
    ensures EndsWith(UvsubCommand(inputPath, outputPath, low, high, wProjectionPlanes), ModelTerm(SpectralWindow(low, high), "tt1"))
  {
    var c := UvsubCommand(inputPath, outputPath, low, high, wProjectionPlanes);
    var head, tail := CommandHead(inputPath, low, high), ModelTerm(SpectralWindow(low, high), "tt1");
    var mid := c[|head|..|c| - |tail|];
    assert c == head + mid + tail;
    assert c[..|head|] == head;
    assert c[|c| - |tail|..] == tail;
  }

  /** What a copy app does besides returning: the side effects it performs, in order. */
  datatype Action = MakeDirs | Download | SendError | Extract | RemoveTar | CreateTar | Upload

  /**
   * What CopyUvsubFromS3.run observes: whether vis_ exists as a directory
   * on entry, whether the output directory exists, whether the tar file
   * exists after the download, the S3 and local sizes, tar's return code,
   * and whether vis_ exists after extraction.
   */
  datatype FromS3Env = FromS3Env(
    setPresent: bool, dirPresent: bool, tarPresent: bool,
    s3Size: int, tarSize: int, tarReturnCode: int, setPresentAfter: bool)

  /** CopyUvsubFromS3.run: its exit code and the actions it takes. */
  method CopyUvsubFromS3Run(env: FromS3Env) returns (code: int, actions: seq<Action>)
    ensures code == 0 || code == 1
    ensures code == 0 <==>
      env.setPresent || (env.tarPresent && env.s3Size == env.tarSize && env.tarReturnCode == 0 && env.setPresentAfter)
    ensures env.setPresent ==> actions == []
    ensures !env.setPresent ==> Download in actions && (MakeDirs in actions <==> !env.dirPresent)
    ensures Extract in actions <==> !env.setPresent && env.tarPresent && env.s3Size == env.tarSize
    ensures SendError in actions <==> code == 1
    ensures RemoveTar in actions <==> code == 0 && !env.setPresent
  {
    actions := [];
    if env.setPresent {
      return 0, actions;
    }
    if !env.dirPresent {
      actions := actions + [MakeDirs];
    }
    actions := actions + [Download];
    if !env.tarPresent {
      actions := actions + [SendError];
      return 1, actions;
    }
    if env.s3Size != env.tarSize {
      actions := actions + [SendError];
      return 1, actions;
    }
    actions := actions + [Extract];
    if env.tarReturnCode != 0 || !env.setPresentAfter {
      actions := actions + [SendError];
      return 1, actions;
    }
    actions := actions + [RemoveTar];
    code := 0;
  }

  /**
   * What CopyUvsubToS3.run observes: whether the uvsub_ set exists as a
   * directory, tar's return code, and whether the tar file exists after.
   */
  datatype ToS3Env = ToS3Env(setPresent: bool, tarReturnCode: int, tarPresent: bool)

  /**
   * CopyUvsubToS3.run: its exit code, or the exception it raises, and the
   * actions it takes. A missing set is reported but exits 0. A failed tar
   * is reported and the upload still runs, returning tar's code; when no
   * tar file was left at all, sizing it for the progress callback raises
   * OSError before the upload.
   */
  method CopyUvsubToS3Run(env: ToS3Env) returns (r: Result<int, string>, actions: seq<Action>)
    ensures !env.setPresent ==> r == Ok(0) && actions == [SendError]
    ensures env.setPresent && env.tarPresent ==> r == Ok(env.tarReturnCode) && Upload in actions
    ensures env.setPresent && !env.tarPresent ==> r == Err("OSError") && Upload !in actions
    ensures env.setPresent ==> |actions| > 0 && actions[0] == CreateTar
    ensures SendError in actions <==> !env.setPresent || env.tarReturnCode != 0 || !env.tarPresent
  {
    if !env.setPresent {
      return Ok(0), [SendError];
    }
    actions := [CreateTar];
    if env.tarReturnCode != 0 || !env.tarPresent {
      actions := actions + [SendError];
    }
    if !env.tarPresent {
      return Err("OSError"), actions;
    }
    actions := actions + [Upload];
    r := Ok(env.tarReturnCode);
  }
}
