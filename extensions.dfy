/** The upload extension check, `allowed_file` (app.py:15, 23-24). */
module Extensions {
  import opened Wrappers

  /** The extensions an upload may carry, compared after lower-casing. */
  const AllowedExtensions: set<string> := {"csv"}

  /** Python's `str.lower()` on one character, for the ASCII letters; no
      character outside ASCII lower-cases to `c`, `s` or `v`. */
  function LowerChar(c: char): char {
    if 'A' <= c <= 'Z' then (c as int + 32) as char else c
  }

  function Lower(s: string): (r: string)
    ensures |r| == |s|
  {
    seq(|s|, i requires 0 <= i < |s| => LowerChar(s[i]))
  }

  /** The second part of `s.rsplit('.', 1)`: the text after the last dot,
      or None when `s` has no dot (rsplit then yields a single part). */
  function AfterLastDot(s: string): (r: Option<string>)
    ensures r.None? <==> '.' !in s
    ensures r.Some? ==> |r.value| < |s| && s[|s| - |r.value| - 1] == '.'
                        && s[|s| - |r.value|..] == r.value && '.' !in r.value
  {
    if s == [] then None
    else if s[|s| - 1] == '.' then Some([])
    else
      var init := s[..|s| - 1];
      assert s == init + [s[|s| - 1]];
      match AfterLastDot(init)
      case None => None
      case Some(ext) => Some(ext + [s[|s| - 1]])
  }

  /** `allowed_file`: the name has a dot and its extension, lower-cased, is
      allowed. That holds exactly for the names that end in a dot followed by
      "csv" in any mix of upper and lower case. */
  function AllowedFile(filename: string): (ok: bool)
    ensures ok <==> |filename| >= 4 && filename[|filename| - 4] == '.'
                    && Lower(filename[|filename| - 3..]) == "csv"
  {
    CsvExtensionIff(filename);
    match AfterLastDot(filename)
    case None => false
    case Some(ext) => Lower(ext) in AllowedExtensions
  }

  predicate EndsWith(s: string, suffix: string) {
    |suffix| <= |s| && s[|s| - |suffix|..] == suffix
  }

  /** Whichever dot is followed by no other dot is the one AfterLastDot finds. */
  lemma AfterLastDotAt(s: string, i: nat)
    requires i < |s| && s[i] == '.' && '.' !in s[i + 1..]
    ensures AfterLastDot(s) == Some(s[i + 1..])
  {
  }

  /** The extension after the last dot lower-cases to "csv" exactly when the
      name ends in a dot and three characters that lower-case to "csv". */
  lemma {:induction false} CsvExtensionIff(filename: string)
    ensures (AfterLastDot(filename).Some? && Lower(AfterLastDot(filename).value) == "csv") <==>
              |filename| >= 4 && filename[|filename| - 4] == '.'
              && Lower(filename[|filename| - 3..]) == "csv"
  {
    var n := |filename|;
    if n >= 4 && filename[n - 4] == '.' && Lower(filename[n - 3..]) == "csv" {
      CsvTailIsExtension(filename);
    }
    if AfterLastDot(filename).Some? && Lower(AfterLastDot(filename).value) == "csv" {
      CsvExtensionIsTail(filename);
    }
  }

  lemma CsvExtensionIsTail(filename: string)
    requires AfterLastDot(filename).Some? && Lower(AfterLastDot(filename).value) == "csv"
    ensures |filename| >= 4 && filename[|filename| - 4] == '.'
    ensures Lower(filename[|filename| - 3..]) == "csv"
  {
    var ext := AfterLastDot(filename).value;
    assert |ext| == 3;
    assert filename[|filename| - 3..] == ext;
  }

  lemma CsvTailIsExtension(filename: string)
    requires |filename| >= 4 && filename[|filename| - 4] == '.'
    requires Lower(filename[|filename| - 3..]) == "csv"
    ensures AfterLastDot(filename) == Some(filename[|filename| - 3..])
  {
    var n := |filename|;
    var tail := filename[n - 3..];
    forall k | 0 <= k < 3 ensures tail[k] != '.' {
      assert LowerChar(tail[k]) == "csv"[k];
    }
    assert filename[n - 4 + 1..] == tail;
    AfterLastDotAt(filename, n - 4);
  }

  /** Upper-case extensions and names with several dots are accepted
      (`report.CSV`, `a.txt.csv`). */
  lemma AcceptedExamples()
    ensures AllowedFile("report.CSV") && AllowedFile("a.txt.csv")
  {
    AfterLastDotAt("report.CSV", 6);
    assert Lower("CSV") == "csv" by {
      assert Lower("CSV")[0] == 'c' && Lower("CSV")[1] == 's' && Lower("CSV")[2] == 'v';
    }
    AfterLastDotAt("a.txt.csv", 5);
    assert Lower("csv") == "csv" by {
      assert Lower("csv")[0] == 'c' && Lower("csv")[1] == 's' && Lower("csv")[2] == 'v';
    }
  }

  /** A wrong last extension, no dot, or a trailing dot are rejected
      (`report.txt`, `a.csv.txt`, `noext`, `name.`). */
  lemma RejectedExamples()
    ensures !AllowedFile("report.txt") && !AllowedFile("a.csv.txt")
    ensures !AllowedFile("noext") && !AllowedFile("name.")
  {
    AfterLastDotAt("report.txt", 6);
    assert Lower("txt")[0] == 't';
    AfterLastDotAt("a.csv.txt", 5);
    assert "noext"[0] != '.' && "noext"[1] != '.' && "noext"[2] != '.';
    AfterLastDotAt("name.", 4);
  }
}
