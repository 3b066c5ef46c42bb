/** `DiskStorage.fileName(for:)` of EmojiArt: the file name under which an
    image fetched from a server path is kept on disk. */
module DiskStorage {

  /** Membership in Foundation's `.punctuationCharacters` (the Unicode
      general categories Pc, Pd, Ps, Pe, Pi, Pf and Po), over ASCII. The
      symbols `$ + < = > ^ \` | ~` are not punctuation. */
  predicate IsPunctuation(c: char)
  {
    c in "!\"#%&'()*,-./:;?@[\\]_{}"
  }

  /** `components(separatedBy: .punctuationCharacters)`: the runs of
      characters between punctuation, empty runs included. */
  function Components(s: string): (parts: seq<string>)
    ensures |parts| >= 1
  {
    if s == [] then [""]
    else
      var init := Components(s[..|s| - 1]);
      var c := s[|s| - 1];
      if IsPunctuation(c) then init + [""]
      else init[..|init| - 1] + [init[|init| - 1] + [c]]
  }

  /** `joined(separator: "_")`. */
  function Joined(parts: seq<string>): string
    requires |parts| >= 1
  {
    if |parts| == 1 then parts[0] else Joined(parts[..|parts| - 1]) + "_" + parts[|parts| - 1]
  }

  /** `fileName(for:)`: the path without its first character, split at
      punctuation and joined with underscores. */
  function FileName(path: string): (name: string)
  {
    if path == [] then "" else Joined(Components(path[1..]))
  }

  /** Each character on its own: punctuation becomes an underscore, anything
      else stays. */
  function Underscored(s: string): (r: string)
    ensures |r| == |s|
    ensures forall i :: 0 <= i < |s| ==> r[i] == if IsPunctuation(s[i]) then '_' else s[i]
  {
    if s == [] then [] else Underscored(s[..|s| - 1]) + [if IsPunctuation(s[|s| - 1]) then '_' else s[|s| - 1]]
  }

  /** Splitting at punctuation and joining with underscores puts one
      underscore where each punctuation character was. */
  lemma {:induction false} JoinedComponents(s: string)
    ensures Joined(Components(s)) == Underscored(s)
  {
    if s != [] {
      var t, c := s[..|s| - 1], s[|s| - 1];
      var init := Components(t);
      JoinedComponents(t);
      if !IsPunctuation(c) {
        LastGrows(init, c);
      }
    }
  }

  /** Adding a character to the last component adds it to the end of the
      joined string. */
  lemma LastGrows(parts: seq<string>, c: char)
    requires |parts| >= 1
    ensures Joined(parts[..|parts| - 1] + [parts[|parts| - 1] + [c]]) == Joined(parts) + [c]
  {
    var grown := parts[..|parts| - 1] + [parts[|parts| - 1] + [c]];
    if |parts| > 1 {
      assert grown[..|grown| - 1] == parts[..|parts| - 1];
    }
  }

  /** The first character is always dropped and every other one is kept in
      place, with punctuation (such as `/`, `.` and `?`) replaced by `_`; an
      empty path gives an empty name. */
  lemma FileNameShape(path: string)
    ensures path == [] ==> FileName(path) == ""
    ensures path != [] ==> |FileName(path)| == |path| - 1
    ensures forall i :: 0 <= i < |FileName(path)| ==>
              FileName(path)[i] == if IsPunctuation(path[i + 1]) then '_' else path[i + 1]
    ensures forall i :: 0 <= i < |FileName(path)| ==>
              !IsPunctuation(FileName(path)[i]) || FileName(path)[i] == '_'
  {
    if path != [] {
      JoinedComponents(path[1..]);
    }
  }
}
