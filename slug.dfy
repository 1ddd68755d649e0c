/** The package slug derived from an app name, written the same way in the
    job server, the Android file tools and the Android file test:
    `app_name.lower().replace('-', '_').replace(' ', '_')`. */
module PackageSlug {
  import opened Text

  function Slug(appName: string): string {
    ReplaceAll(ReplaceAll(Lower(appName), "-", "_"), " ", "_")
  }

  /** The slug is the name with each ASCII capital lowered and each `-` and
      space turned into `_`, character by character: same length, no capital,
      no `-` and no space. */
  lemma SlugPointwise(appName: string)
    ensures |Slug(appName)| == |appName|
    ensures forall i :: 0 <= i < |appName| ==>
      Slug(appName)[i] == (if appName[i] == '-' || appName[i] == ' ' then '_' else ToLower(appName[i]))
    ensures forall i :: 0 <= i < |appName| ==>
      !IsAsciiUpper(Slug(appName)[i]) && Slug(appName)[i] != '-' && Slug(appName)[i] != ' '
  {
    ReplaceAllSingleChar(Lower(appName), '-', '_');
    ReplaceAllSingleChar(ReplaceChar(Lower(appName), '-', '_'), ' ', '_');
  }

  /** A slug is its own slug. */
  lemma SlugIdempotent(appName: string)
    ensures Slug(Slug(appName)) == Slug(appName)
  {
    var s := Slug(appName);
    SlugPointwise(appName);
    SlugPointwise(s);
  }

  /** `"flutter_app"`, the default app name, is already a slug. */
  lemma DefaultNameSlug()
    ensures Slug("flutter_app") == "flutter_app"
  {
    SlugOfSlugChars("flutter_app");
  }

  /** A name without capitals, `-` or spaces is its own slug. */
  lemma SlugOfSlugChars(s: string)
    requires forall i :: 0 <= i < |s| ==> !IsAsciiUpper(s[i]) && s[i] != '-' && s[i] != ' '
    ensures Slug(s) == s
  {
    SlugPointwise(s);
    assert forall i :: 0 <= i < |s| ==> Slug(s)[i] == s[i];
  }
}
