/**
 * `get_model_files` (depthai_utils.py): the blob and its JSON configuration
 * for a named network, both under `<nn resource path><model>/<model>`.
 */
module ModelFiles {

  /** `<nn resource path><model>/<model>`; the resource path is a parameter here. */
  function ModelStem(nnPath: string, model: string): string
  {
    nnPath + model + "/" + model
  }

  /** The pair `(blob_file, blob_file_config)`; the configuration ends in `_depth.json` when distances are computed. */
  function GetModelFiles(nnPath: string, calcDistToBb: bool, model: string): (r: (string, string))
    ensures |r.0| >= 5 && |r.1| >= (if calcDistToBb then 11 else 5)
    ensures r.0[..|r.0| - 5] == ModelStem(nnPath, model) && r.0[|r.0| - 5..] == ".blob"
    ensures calcDistToBb ==> r.1[..|r.1| - 11] == ModelStem(nnPath, model) && r.1[|r.1| - 11..] == "_depth.json"
    ensures !calcDistToBb ==> r.1[..|r.1| - 5] == ModelStem(nnPath, model) && r.1[|r.1| - 5..] == ".json"
  {
    var stem := ModelStem(nnPath, model);
    var suffix := if calcDistToBb then "_depth" else "";
    (stem + ".blob", stem + suffix + ".json")
  }

  /** The blob does not depend on whether distances are computed. */
  lemma BlobIndependentOfDepth(nnPath: string, model: string)
    ensures GetModelFiles(nnPath, true, model).0 == GetModelFiles(nnPath, false, model).0
  {
  }

  /** The blob and its configuration are never the same file. */
  lemma BlobDiffersFromConfig(nnPath: string, calcDistToBb: bool, model: string)
    ensures GetModelFiles(nnPath, calcDistToBb, model).0 != GetModelFiles(nnPath, calcDistToBb, model).1
  {
    var r := GetModelFiles(nnPath, calcDistToBb, model);
    var n := |ModelStem(nnPath, model)|;
    if !calcDistToBb {
      assert r.0[n + 1] == 'b' && r.1[n + 1] == 'j';
    }
  }

  /** Different models, or a different depth setting, give different configuration files. */
  lemma {:induction false} ModelFilesInjective(nnPath: string, c1: bool, m1: string, c2: bool, m2: string)
    requires GetModelFiles(nnPath, c1, m1).1 == GetModelFiles(nnPath, c2, m2).1
    ensures c1 == c2 && m1 == m2
  {
    var r1, r2 := GetModelFiles(nnPath, c1, m1).1, GetModelFiles(nnPath, c2, m2).1;
    var s1, s2 := ModelStem(nnPath, m1), ModelStem(nnPath, m2);
    if c1 != c2 {
      assert |r1| == |nnPath| + 2 * |m1| + 1 + (if c1 then 11 else 5);
      assert |r2| == |nnPath| + 2 * |m2| + 1 + (if c2 then 11 else 5);
      if c1 {
        DepthConfigClash(nnPath, m2, m1);
      } else {
        DepthConfigClash(nnPath, m1, m2);
      }
      assert false;
    }
    assert |s1| == |s2|;
    assert s1 == r1[..|s1|] == r2[..|s2|] == s2;
    assert m1 == s1[|nnPath|..|nnPath| + |m1|];
    assert m2 == s2[|nnPath|..|nnPath| + |m2|];
  }

  /**
   * A configuration path without `_depth` never equals one with it.  Equal
   * lengths need the plain model name to be three characters longer; its
   * character at the length of the other name would then face the `/` of
   * the depth path in its first copy and the `p` of `_depth` in its second.
   */
  lemma DepthConfigClash(nnPath: string, plain: string, depth: string)
    requires |plain| == |depth| + 3
    ensures ModelStem(nnPath, plain) + ".json" != ModelStem(nnPath, depth) + "_depth.json"
  {
    var a := ModelStem(nnPath, plain) + ".json";
    var b := ModelStem(nnPath, depth) + "_depth.json";
    var j := |depth|;
    assert a[|nnPath| + j] == plain[j];
    assert b[|nnPath| + j] == '/';
    assert a[|nnPath| + |plain| + 1 + j] == plain[j];
    assert b[|nnPath| + |plain| + 1 + j] == 'p';
  }
}
