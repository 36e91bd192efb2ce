/** The file-extension allow-list every load or open checks first. */
module FileTypes {

  const SUPPORTED_FILE_EXTENSIONS: seq<string> :=
    [".ogg", ".wav", ".flac", ".aiff", ".au", ".raw", ".paf", ".svx", ".nist",
     ".voc", ".ircam", ".w64", ".mat4", ".mat5", ".pvf", ".htk", ".sds", ".avr",
     ".sd2", ".caf", ".wve", ".mpc2k", ".rf64"]

  /** find_last_of('.'): the index of the last dot. */
  function LastDot(path: string): (i: nat)
    requires '.' in path
    ensures i < |path| && path[i] == '.'
    ensures forall j :: i < j < |path| ==> path[j] != '.'
  {
    var n := |path| - 1;
    if path[n] == '.' then n
    else
      assert path == path[..n] + [path[n]];
      LastDot(path[..n])
  }

  /** substr(dotIndex): the extension, dot included. */
  function Extension(path: string): (ext: string)
    requires '.' in path
    ensures 1 <= |ext| <= |path| && ext[0] == '.' && '.' !in ext[1..]
    ensures path == path[..|path| - |ext|] + ext
  {
    var ext := path[LastDot(path)..];
    assert forall j :: 1 <= j < |ext| ==> ext[j] == path[LastDot(path) + j];
    ext
  }

  /** The extension matches one of the allow-list entries exactly (case-sensitively). */
  predicate IsTypeSupported(path: string)
    requires '.' in path
    ensures IsTypeSupported(path) ==>
              exists k :: 0 <= k < |SUPPORTED_FILE_EXTENSIONS| && EndsWith(path, SUPPORTED_FILE_EXTENSIONS[k])
  {
    Extension(path) in SUPPORTED_FILE_EXTENSIONS
  }

  predicate EndsWith(s: string, suffix: string) {
    |suffix| <= |s| && s[|s| - |suffix|..] == suffix
  }

  /** Each entry of the allow-list is a dot followed by dot-free text. */
  lemma ExtensionsAreDotted(k: nat)
    requires k < |SUPPORTED_FILE_EXTENSIONS|
    ensures var e := SUPPORTED_FILE_EXTENSIONS[k]; |e| >= 2 && e[0] == '.' && '.' !in e[1..]
  {
  }

  /** A path whose tail is a dot followed by dot-free text has exactly that tail as its extension. */
  lemma {:induction false} ExtensionOfDottedSuffix(path: string, e: string)
    requires |e| >= 1 && e[0] == '.' && '.' !in e[1..] && EndsWith(path, e)
    ensures '.' in path && Extension(path) == e
  {
    var start := |path| - |e|;
    assert path[start] == e[0];
    var i := LastDot(path);
    forall j | start < j < |path| ensures path[j] != '.' {
      assert path[j] == e[j - start] && e[j - start] in e[1..];
    }
    assert i == start;
  }

  /** A path is supported exactly when it ends with one of the allow-list entries. */
  lemma {:induction false} SupportedIffEndsWithExtension(path: string)
    requires '.' in path
    ensures IsTypeSupported(path) <==>
            exists k :: 0 <= k < |SUPPORTED_FILE_EXTENSIONS| && EndsWith(path, SUPPORTED_FILE_EXTENSIONS[k])
  {
    var exts := SUPPORTED_FILE_EXTENSIONS;
    if IsTypeSupported(path) {
      var k :| 0 <= k < |exts| && exts[k] == Extension(path);
      assert EndsWith(path, exts[k]);
    }
    if k :| 0 <= k < |exts| && EndsWith(path, exts[k]) {
      ExtensionsAreDotted(k);
      ExtensionOfDottedSuffix(path, exts[k]);
    }
  }

  /** The extension is taken after the last dot. */
  lemma SupportedExamples()
    ensures IsTypeSupported("a.tar.ogg")
    ensures !IsTypeSupported("x.ogg.bak")
  {
    ExtensionOfDottedSuffix("a.tar.ogg", ".ogg");
    ExtensionOfDottedSuffix("x.ogg.bak", ".bak");
  }

  /** The match is case-sensitive. */
  lemma UpperCaseUnsupported()
    ensures !IsTypeSupported("x.WAV")
  {
    ExtensionOfDottedSuffix("x.WAV", ".WAV");
  }
}
