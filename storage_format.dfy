/**
 * The file-format helper of the image element: the lower-cased text after the
 * last "." of a storage path, or the whole path lower-cased when it has no dot.
 */
module StorageFormat {

  /** String.prototype.lastIndexOf for a single character: -1 when absent. */
  function LastIndexOf(s: string, c: char): (r: int)
    ensures -1 <= r < |s|
    ensures r == -1 <==> c !in s
    ensures 0 <= r ==> s[r] == c && c !in s[r + 1..]
  {
    if |s| == 0 then -1
    else if s[|s| - 1] == c then |s| - 1
    else
      assert s == s[..|s| - 1] + [s[|s| - 1]];
      LastIndexOf(s[..|s| - 1], c)
  }

  /** Lower-case mapping of one character (ASCII letters only). */
  function LowerChar(ch: char): char
  {
    if 'A' <= ch <= 'Z' then (ch as int + 32) as char else ch
  }

  predicate IsUpper(ch: char)
  {
    'A' <= ch <= 'Z'
  }

  /** String.prototype.toLowerCase, character by character. */
  function ToLowerCase(s: string): (r: string)
    ensures |r| == |s|
    ensures forall i :: 0 <= i < |s| ==> r[i] == LowerChar(s[i])
    ensures forall i :: 0 <= i < |r| ==> !IsUpper(r[i])
  {
    if s == [] then [] else [LowerChar(s[0])] + ToLowerCase(s[1..])
  }

  /** `filePath.substr(filePath.lastIndexOf(".") + 1).toLowerCase()` */
  function GetStorageFileFormat(filePath: string): (r: string)
    ensures |r| <= |filePath| && '.' !in r
    ensures forall i :: 0 <= i < |r| ==> !IsUpper(r[i])
    ensures '.' !in filePath ==> r == ToLowerCase(filePath)
    ensures '.' in filePath ==>
      exists k :: 0 <= k < |filePath| && filePath[k] == '.' && '.' !in filePath[k + 1..]
                  && r == ToLowerCase(filePath[k + 1..])
  {
    var dot := LastIndexOf(filePath, '.');
    var ext := filePath[dot + 1..];
    assert '.' !in ext;
    var r := ToLowerCase(ext);
    assert '.' !in r by {
      forall i | 0 <= i < |r| ensures r[i] != '.' {
        assert r[i] == LowerChar(ext[i]) && ext[i] != '.';
      }
    }
    assert 0 <= dot ==> filePath[dot] == '.' && '.' !in filePath[dot + 1..] && r == ToLowerCase(filePath[dot + 1..]);
    r
  }

  /** Joining a stem and a dot-free extension with "." and asking for the format gives back the extension. */
  lemma ExtensionOfJoined(stem: string, ext: string)
    requires '.' !in ext
    ensures GetStorageFileFormat(stem + "." + ext) == ToLowerCase(ext)
  {
    var path := stem + "." + ext;
    assert path[|stem|] == '.';
    assert path[|stem| + 1..] == ext;
  }

  /** Lower-casing twice changes nothing more than lower-casing once. */
  lemma ToLowerCaseIdempotent(s: string)
    ensures ToLowerCase(ToLowerCase(s)) == ToLowerCase(s)
  {
  }

  /** The extension of a mixed-case image path comes back in lower case. */
  lemma UpperCaseExtensionExample()
    ensures GetStorageFileFormat("images/Logo.PNG") == "png"
  {
  }

  /** Only the text after the last dot is the format. */
  lemma DoubleExtensionExample()
    ensures GetStorageFileFormat("archive.tar.gz") == "gz"
  {
  }
}
