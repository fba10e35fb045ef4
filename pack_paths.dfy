/** `gen_paths` of the EEG packing step: the raw-data folder of a recording and the
    `.dat` file it is packed into, inside a per-recording output folder that is
    created when it does not exist yet. */
module PackPaths {

  /** `sep.join(parts)`: the parts with the separator between consecutive ones; the
      result starts with the first part and ends with the last. */
  function SepJoin(sep: string, parts: seq<string>): (r: string)
    ensures parts == [] ==> r == ""
    ensures parts != [] ==> |parts[0]| <= |r| && r[..|parts[0]|] == parts[0]
    ensures parts != [] ==> |parts[|parts| - 1]| <= |r| && r[|r| - |parts[|parts| - 1]|..] == parts[|parts| - 1]
  {
    if parts == [] then ""
    else if |parts| == 1 then parts[0]
    else
      var init := parts[..|parts| - 1];
      var rest := SepJoin(sep, init);
      assert init[0] == parts[0];
      assert (rest + sep + parts[|parts| - 1])[..|parts[0]|] == rest[..|parts[0]|];
      rest + sep + parts[|parts| - 1]
  }

  /** Joining two parts puts one separator between them. */
  lemma SepJoinPair(sep: string, a: string, b: string)
    ensures SepJoin(sep, [a, b]) == a + sep + b
  {
    assert [a, b][..1] == [a];
  }

  /** What `gen_paths` produces: the returned pair and the set of directories that
      exist afterwards (the `os.mkdir` of a missing output folder). */
  datatype GenPathsOutcome = GenPathsOutcome(rawData: string, fileName: string, dirsAfter: set<string>)

  /** `gen_paths(openephys_folder, recording, dat_folder, sep, verbose)` run while the
      directories in `dirs` exist; `verbose` only selects progress messages. */
  function GenPaths(openephysFolder: string, recording: string, datFolder: string, sep: string,
                    verbose: bool, dirs: set<string>): (r: GenPathsOutcome)
    ensures dirs <= r.dirsAfter
    ensures |openephysFolder| <= |r.rawData| && r.rawData[..|openephysFolder|] == openephysFolder
    ensures |r.fileName| >= 4 && r.fileName[|r.fileName| - 4..] == ".dat"
  {
    var rawData := SepJoin(sep, [openephysFolder, recording]);
    var datOutFolder := SepJoin(sep, [datFolder, recording]);
    var dirsAfter := if datOutFolder !in dirs then dirs + {datOutFolder} else dirs;
    var fileName := SepJoin(sep, [datOutFolder, recording]) + ".dat";
    GenPathsOutcome(rawData, fileName, dirsAfter)
  }

  /** The raw data folder is the open-ephys folder, the separator, then the recording. */
  lemma RawDataPath(openephysFolder: string, recording: string, datFolder: string, sep: string,
                    verbose: bool, dirs: set<string>)
    ensures GenPaths(openephysFolder, recording, datFolder, sep, verbose, dirs).rawData
      == openephysFolder + sep + recording
  {
    SepJoinPair(sep, openephysFolder, recording);
  }

  /** The packed file is `<dat_folder><sep><recording><sep><recording>.dat`: it lies in
      the per-recording output folder and ends in ".dat". */
  lemma FileNamePath(openephysFolder: string, recording: string, datFolder: string, sep: string,
                     verbose: bool, dirs: set<string>)
    ensures var r := GenPaths(openephysFolder, recording, datFolder, sep, verbose, dirs);
      && r.fileName == datFolder + sep + recording + sep + recording + ".dat"
      && r.fileName[..|datFolder + sep + recording + sep|] == datFolder + sep + recording + sep
      && r.fileName[|r.fileName| - 4..] == ".dat"
  {
    var out := datFolder + sep + recording;
    SepJoinPair(sep, datFolder, recording);
    SepJoinPair(sep, out, recording);
    var f := out + sep + recording + ".dat";
    assert f[..|out + sep|] == out + sep;
  }

  /** The output folder exists afterwards; no other directory is created or removed. */
  lemma OutputFolderCreated(openephysFolder: string, recording: string, datFolder: string, sep: string,
                            verbose: bool, dirs: set<string>)
    ensures GenPaths(openephysFolder, recording, datFolder, sep, verbose, dirs).dirsAfter
      == dirs + {datFolder + sep + recording}
  {
    SepJoinPair(sep, datFolder, recording);
  }

  /** The returned pair depends neither on `verbose` nor on which directories already existed. */
  lemma PathsIndependentOfFlagsAndDisk(openephysFolder: string, recording: string, datFolder: string, sep: string,
                                       verbose1: bool, dirs1: set<string>, verbose2: bool, dirs2: set<string>)
    ensures GenPaths(openephysFolder, recording, datFolder, sep, verbose1, dirs1).rawData
      == GenPaths(openephysFolder, recording, datFolder, sep, verbose2, dirs2).rawData
    ensures GenPaths(openephysFolder, recording, datFolder, sep, verbose1, dirs1).fileName
      == GenPaths(openephysFolder, recording, datFolder, sep, verbose2, dirs2).fileName
  {
  }
}
