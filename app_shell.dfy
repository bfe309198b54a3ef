/**
 * The application frame (src/components/app-shell.tsx): which navigation entry is
 * highlighted for the current path, and which parts of the frame are drawn.
 */
module AppShell {
  import opened Strings

  /** `isActive(path)`: home only on `/` itself, any other entry on every path it begins. */
  function IsActive(pathname: string, path: string): (r: bool)
    ensures path == "/" ==> (r <==> pathname == "/")
    ensures path != "/" ==> (r <==> |path| <= |pathname| && pathname[..|path|] == path)
  {
    if path == "/" then pathname == "/" else StartsWith(pathname, path)
  }

  /** The matching is by prefix, so an entry is also lit on a longer path that merely begins with it. */
  lemma PrefixMatchQuirk()
    ensures IsActive("/searchx", "/search")
    ensures IsActive("/search/results", "/search")
    ensures !IsActive("/search", "/")
  {
    assert "/searchx"[..7] == "/search";
    assert "/search/results"[..7] == "/search";
  }

  /** The bottom navigation's links. */
  const BottomNav: seq<string> := ["/", "/search", "/library"]

  /** At most one link of the bottom navigation is lit, whatever the path. */
  lemma OneBottomLinkLit(pathname: string, i: nat, j: nat)
    requires i < j < |BottomNav|
    ensures !(IsActive(pathname, BottomNav[i]) && IsActive(pathname, BottomNav[j]))
  {
    assert BottomNav[1][1] == 's' && BottomNav[2][1] == 'l';
  }

  /** The sidebar's links: home for everyone, and profile, news and settings once signed in. */
  function SidebarLinks(signedIn: bool): (r: seq<string>)
    ensures |r| >= 1 && r[0] == "/" && (|r| == 1 <==> !signedIn)
  {
    if signedIn then ["/", "/profile", "/whats-new", "/settings"] else ["/"]
  }

  /** What the frame draws around a page. */
  datatype Frame =
    | ChildrenOnly
    | Shell(sidebar: seq<string>, miniPlayer: bool, fullScreenPlayer: bool)

  /** The sign-in and sign-up pages are drawn alone. */
  predicate BypassesShell(pathname: string) {
    pathname == "/login" || pathname == "/signup"
  }

  function FrameFor(pathname: string, hasSong: bool, signedIn: bool): (r: Frame)
    ensures r.ChildrenOnly? <==> BypassesShell(pathname)
    ensures r.Shell? ==> (r.miniPlayer == hasSong && r.fullScreenPlayer == hasSong &&
      r.sidebar == SidebarLinks(signedIn))
  {
    if BypassesShell(pathname) then ChildrenOnly
    else Shell(SidebarLinks(signedIn), hasSong, hasSong)
  }

  /** On the sign-in pages no player is drawn, even while a song is loaded. */
  lemma NoPlayerOnSignIn(hasSong: bool, signedIn: bool)
    ensures FrameFor("/login", hasSong, signedIn) == ChildrenOnly
    ensures FrameFor("/signup", hasSong, signedIn) == ChildrenOnly
    ensures !BypassesShell("/library") && FrameFor("/library", hasSong, signedIn).miniPlayer == hasSong
  {
  }
}
