/** `sanitizeFileName` of json_yaml.js: an asset path turned into a safe file stem. */
module FileNames {
  import opened Text

  /** `s.replace(/[\/\\]/g, '-')`. */
  function ReplaceSeparators(s: string): string {
    seq(|s|, i requires 0 <= i < |s| => if s[i] == '/' || s[i] == '\\' then '-' else s[i])
  }

  /** `s.replace(/^[^a-zA-Z0-9]+/, '')`. */
  function StripLeadingNonAlnum(s: string): (r: string)
    ensures |r| <= |s| && r == s[|s| - |r|..]
    ensures r == [] || Alnum(r[0])
    ensures forall i :: 0 <= i < |s| - |r| ==> !Alnum(s[i])
  {
    if s == [] || Alnum(s[0]) then s
    else
      var r := StripLeadingNonAlnum(s[1..]);
      assert forall i :: 1 <= i < |s| - |r| ==> s[i] == s[1..][i - 1];
      r
  }

  /** `s.replace(/[^a-zA-Z0-9-_]/g, '-')`. */
  function ReplaceDisallowed(s: string): string {
    seq(|s|, i requires 0 <= i < |s| => if Allowed(s[i]) then s[i] else '-')
  }

  /**
   * The stem is made of `[A-Za-z0-9_-]` only, is empty or starts with a letter or digit,
   * and is never longer than the path it came from.
   */
  function SanitizeFileName(originalPath: string): (r: string)
    ensures forall i :: 0 <= i < |r| ==> Allowed(r[i])
    ensures r == [] || Alnum(r[0])
    ensures |r| <= |originalPath|
  {
    var noExt := RemoveFirst(originalPath, Extname(originalPath));
    var separatorsReplaced := ReplaceSeparators(noExt);
    var stripped := StripLeadingNonAlnum(separatorsReplaced);
    ReplaceDisallowed(stripped)
  }

  /** A string that is already a sanitised stem. */
  predicate IsStem(s: string) {
    (s == [] || Alnum(s[0])) && forall i :: 0 <= i < |s| ==> Allowed(s[i])
  }

  /** A path without dots has no extension. */
  lemma ExtnameNoDot(s: string)
    requires '.' !in s
    ensures Extname(s) == ""
  {
    LastIndexOfAbsent(LastComponent(s), '.');
  }

  /** Every step of `SanitizeFileName` leaves a stem as it is. */
  lemma SanitizeStem(s: string)
    requires IsStem(s)
    ensures SanitizeFileName(s) == s
  {
    StemKeepsExtension(s);
    StemKeepsSeparators(s);
    StemKeepsCharacters(s);
  }

  lemma StemKeepsExtension(s: string)
    requires IsStem(s)
    ensures RemoveFirst(s, Extname(s)) == s
  {
    assert '.' !in s by {
      forall i | 0 <= i < |s| ensures s[i] != '.' {
        assert Allowed(s[i]);
      }
    }
    ExtnameNoDot(s);
  }

  lemma StemKeepsSeparators(s: string)
    requires IsStem(s)
    ensures ReplaceSeparators(s) == s
  {
    forall i | 0 <= i < |s| ensures ReplaceSeparators(s)[i] == s[i] {
      assert Allowed(s[i]);
    }
  }

  lemma StemKeepsCharacters(s: string)
    requires IsStem(s)
    ensures ReplaceDisallowed(s) == s
  {
  }

  /** Sanitising a file name twice gives the same stem as sanitising it once. */
  lemma SanitizeFileNameIdempotent(p: string)
    ensures SanitizeFileName(SanitizeFileName(p)) == SanitizeFileName(p)
  {
    SanitizeStem(SanitizeFileName(p));
  }

  /** The asset path of the design notes: "/icons/home.png" becomes "icons-home". */
  lemma SanitizeIconPath()
    ensures SanitizeFileName("/icons/home.png") == "icons-home"
  {
    IconExtension();
    IconWithoutExtension();
    IconSeparators();
    IconStripped();
    IconCharacters();
    SanitizeSteps("/icons/home.png", "/icons/home", "-icons-home", "icons-home");
  }

  /** `SanitizeFileName` unfolded one step at a time. */
  lemma SanitizeSteps(p: string, noExt: string, separatorsReplaced: string, stripped: string)
    requires noExt == RemoveFirst(p, Extname(p))
    requires separatorsReplaced == ReplaceSeparators(noExt)
    requires stripped == StripLeadingNonAlnum(separatorsReplaced)
    ensures SanitizeFileName(p) == ReplaceDisallowed(stripped)
  {
  }

  lemma IconLastComponent()
    ensures LastComponent("/icons/home.png") == "home.png"
  {
    var p := "/icons/home.png";
    assert TrimTrailingSlashes(p) == p;
    assert p[6] == '/' && p[7..] == "home.png";
    assert LastIndexOf(p, '/') == 6;
  }

  lemma IconExtension()
    ensures Extname("/icons/home.png") == ".png"
  {
    IconLastComponent();
    assert "home.png"[4] == '.' && "home.png"[4..] == ".png";
    assert LastIndexOf("home.png", '.') == 4;
  }

  lemma IconWithoutExtension()
    ensures RemoveFirst("/icons/home.png", ".png") == "/icons/home"
  {
    var p := "/icons/home.png";
    assert p[..11] == "/icons/home";
    forall j | 0 <= j < 11 ensures !OccursAt(p, ".png", j) {
      assert p[j] == p[..11][j];
    }
    RemoveFirstAt(p, ".png", 11);
  }

  lemma IconSeparators()
    ensures ReplaceSeparators("/icons/home") == "-icons-home"
  {
  }

  lemma IconCharacters()
    ensures ReplaceDisallowed("icons-home") == "icons-home"
  {
    var s := "icons-home";
    forall i | 0 <= i < |s| ensures ReplaceDisallowed(s)[i] == s[i] {
      assert Allowed(s[i]);
    }
  }

  lemma IconStripped()
    ensures StripLeadingNonAlnum("-icons-home") == "icons-home"
  {
    var s := "-icons-home";
    assert !Alnum(s[0]);
    assert s[1..] == "icons-home";
    assert Alnum("icons-home"[0]);
    assert StripLeadingNonAlnum("icons-home") == "icons-home";
  }
}
