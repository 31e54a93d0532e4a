/** Which client pages show the top navigation bar. */
module Navbar {
  import Text

  /** Pages matched exactly: the landing page and the two auth pages. */
  const PathsWithoutNavbar: seq<string> := ["/", "/login", "/signup"]

  /** The dashboard sections, which have their own layout; matched as raw
      string prefixes, not as path segments. */
  const SectionPrefixes: seq<string> := ["/dashboard", "/reports", "/analytics", "/settings"]

  /** The path lies under a dashboard section, by string prefix. */
  predicate InSection(path: string) {
    exists i :: 0 <= i < |SectionPrefixes| && Text.StartsWith(path, SectionPrefixes[i])
  }

  /** `NavbarWrapper`: `true` when the navbar is rendered for `path`. */
  function ShowNavbar(path: string): (show: bool)
    ensures show <==> path !in PathsWithoutNavbar && !InSection(path)
  {
    assert SectionPrefixes[0] == "/dashboard" && SectionPrefixes[1] == "/reports";
    assert SectionPrefixes[2] == "/analytics" && SectionPrefixes[3] == "/settings";
    if path in PathsWithoutNavbar then false
    else if Text.StartsWith(path, "/dashboard")
         || Text.StartsWith(path, "/reports")
         || Text.StartsWith(path, "/analytics")
         || Text.StartsWith(path, "/settings") then false
    else true
  }

  /** Everything under a section is hidden, whatever follows the prefix,
      including a continuation of the same word such as "/dashboardx". */
  lemma HiddenUnderSections(i: nat, rest: string)
    requires i < |SectionPrefixes|
    ensures !ShowNavbar(SectionPrefixes[i] + rest)
    ensures !ShowNavbar("/dashboardx")
  {
    var p := SectionPrefixes[i];
    assert (p + rest)[..|p|] == p;
    assert Text.StartsWith(p + rest, p);
    assert "/dashboardx"[..|"/dashboard"|] == "/dashboard";
  }

  /** The auth pages are matched exactly: anything longer that starts with
      "/login" or "/signup" ("/login/" among them) shows the navbar. */
  lemma AuthPagesMatchedExactly(rest: string)
    requires rest != ""
    ensures ShowNavbar("/login" + rest) && ShowNavbar("/signup" + rest)
    ensures !ShowNavbar("/login") && !ShowNavbar("/signup") && !ShowNavbar("/")
    ensures ShowNavbar("/login/")
  {
    var l := "/login" + rest;
    var s := "/signup" + rest;
    assert l[1] == 'l' && s[1] == 's';
    assert |l| > |"/login"| && |s| > |"/signup"|;
    assert !InSection(l) by {
      forall i | 0 <= i < |SectionPrefixes| ensures !Text.StartsWith(l, SectionPrefixes[i]) {
        assert SectionPrefixes[i][1] != 'l';
      }
    }
    assert !InSection(s) by {
      forall i | 0 <= i < |SectionPrefixes| ensures !Text.StartsWith(s, SectionPrefixes[i]) {
        if i == 3 {
          assert SectionPrefixes[3][2] != s[2];
        } else {
          assert SectionPrefixes[i][1] != 's';
        }
      }
    }
    assert "/login/" == "/login" + "/";
    assert !InSection("/login/") by {
      forall i | 0 <= i < |SectionPrefixes| ensures !Text.StartsWith("/login/", SectionPrefixes[i]) {
        assert SectionPrefixes[i][1] != 'l';
      }
    }
  }

  /** Any other page under the root, such as "/about", shows the navbar. */
  lemma OtherPagesShown()
    ensures ShowNavbar("/about")
    ensures ShowNavbar("/privacy")
  {
    assert !InSection("/about") by {
      forall i | 0 <= i < |SectionPrefixes| ensures !Text.StartsWith("/about", SectionPrefixes[i]) {
        assert SectionPrefixes[i][1] != 'a' || SectionPrefixes[i][2] != 'b';
      }
    }
    assert !InSection("/privacy") by {
      forall i | 0 <= i < |SectionPrefixes| ensures !Text.StartsWith("/privacy", SectionPrefixes[i]) {
        assert SectionPrefixes[i][1] != 'p';
      }
    }
  }
}
