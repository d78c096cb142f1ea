/**
 * Domain resolution of the extension's background script.
 *
 * `extractDomain(url)` parses the url and returns its hostname with
 * `.replace('www.', '')` applied, or `null` when parsing throws.
 * The parser itself is foreign code: the model receives its outcome as
 * an `Option<string>` (the hostname, or `None` for a parse failure) and
 * models only the string replacement.  A string pattern given to
 * JavaScript's `replace` removes its FIRST occurrence, wherever it is,
 * not only a leading one.
 */
module Domain {
  import opened Wrappers

  const Www: string := "www."

  /** `p` occurs in `s` starting at index `i`. */
  predicate OccursAt(s: string, p: string, i: int)
  {
    0 <= i && i + |p| <= |s| && s[i..i + |p|] == p
  }

  /** `i` is the first index at which `p` occurs in `s`. */
  predicate FirstOccurrence(s: string, p: string, i: int)
  {
    OccursAt(s, p, i) && forall j :: 0 <= j < i ==> !OccursAt(s, p, j)
  }

  /** JavaScript's `s.indexOf(p)`: the first index of `p` in `s`, or -1. */
  function IndexOf(s: string, p: string): (r: int)
    ensures r == -1 <==> forall i :: !OccursAt(s, p, i)
    ensures r != -1 ==> FirstOccurrence(s, p, r)
    decreases |s|
  {
    if |s| < |p| then
      -1
    else if s[..|p|] == p then
      assert OccursAt(s, p, 0);
      0
    else
      var k := IndexOf(s[1..], p);
      assert forall i :: 0 <= i ==> (OccursAt(s[1..], p, i) <==> OccursAt(s, p, i + 1)) by {
        forall i | 0 <= i ensures OccursAt(s[1..], p, i) <==> OccursAt(s, p, i + 1) {
          ShiftOccurrence(s, p, i);
        }
      }
      assert !OccursAt(s, p, 0);
      assert forall j :: 0 < j ==> (OccursAt(s, p, j) <==> OccursAt(s[1..], p, j - 1)) by {
        forall j | 0 < j ensures OccursAt(s, p, j) <==> OccursAt(s[1..], p, j - 1) {
          ShiftOccurrence(s, p, j - 1);
        }
      }
      if k == -1 then -1 else k + 1
  }

  /** An occurrence in `s[1..]` is an occurrence in `s` one place later. */
  lemma ShiftOccurrence(s: string, p: string, i: int)
    requires |s| > 0 && 0 <= i
    ensures OccursAt(s[1..], p, i) <==> OccursAt(s, p, i + 1)
  {
    if 0 <= i && i + |p| <= |s| - 1 {
      assert s[1..][i..i + |p|] == s[i + 1..i + 1 + |p|];
    }
  }

  /** `hostname.replace('www.', '')`. */
  function StripWww(host: string): (r: string)
    ensures r == host <==> forall i :: !OccursAt(host, Www, i)
    ensures |r| == if r == host then |host| else |host| - |Www|
  {
    var i := IndexOf(host, Www);
    if i == -1 then host else host[..i] + host[i + |Www|..]
  }

  /**
   * `extractDomain(url)` with the url already parsed: `None` stands for a
   * url that `new URL` rejects, `Some(h)` for one whose hostname is `h`.
   */
  function ExtractDomain(host: Option<string>): (r: Option<string>)
    ensures r.None? <==> host.None?
    ensures host.Some? ==> r.value == StripWww(host.value)
  {
    match host
    case None => None
    case Some(h) => Some(StripWww(h))
  }

  /** The JavaScript test `if (domain)`: not null and not the empty string. */
  predicate Resolved(domain: Option<string>)
  {
    domain.Some? && domain.value != ""
  }

  /** What exactly is removed: the first "www.", wherever it stands. */
  lemma StripRemovesFirstOccurrence(host: string, i: int)
    requires FirstOccurrence(host, Www, i)
    ensures StripWww(host) == host[..i] + host[i + |Www|..]
  {
    var k := IndexOf(host, Www);
    assert k == i;
  }

  /** A leading "www." is the first occurrence, so it is the one removed. */
  lemma StripLeadingWww(rest: string)
    ensures StripWww(Www + rest) == rest
  {
    var host := Www + rest;
    assert host[0..|Www|] == Www;
    StripRemovesFirstOccurrence(host, 0);
    assert host[|Www|..] == rest;
  }

  /** A hostname without the letter 'w' has no "www." and is kept as it is. */
  lemma StripKeepsHostWithoutW(host: string)
    requires forall k :: 0 <= k < |host| ==> host[k] != 'w'
    ensures StripWww(host) == host
  {
    forall i ensures !OccursAt(host, Www, i) {
      if 0 <= i && i + |Www| <= |host| {
        assert host[i..i + |Www|][0] == host[i];
      }
    }
  }

  /** A leading "www." goes. */
  lemma StripExampleLeading()
    ensures StripWww("www.github.com") == "github.com"
  {
    StripLeadingWww("github.com");
  }

  /** A hostname without "www." is returned unchanged. */
  lemma StripExampleAbsent()
    ensures StripWww("github.com") == "github.com"
  {
    StripKeepsHostWithoutW("github.com");
  }

  /** Only the first "www." goes. */
  lemma StripExampleTwice()
    ensures StripWww("www.www.example.org") == "www.example.org"
  {
    StripLeadingWww("www.example.org");
  }

  /**
   * An inner "www." goes too, not only a leading one: after a prefix
   * without the letter 'w' (such as "docs."), the "www." that follows is
   * the one removed.
   */
  lemma StripAfterPrefixWithoutW(prefix: string, rest: string)
    requires forall k :: 0 <= k < |prefix| ==> prefix[k] != 'w'
    ensures StripWww(prefix + Www + rest) == prefix + rest
  {
    var h := prefix + Www + rest;
    var n := |prefix|;
    assert h[n..n + |Www|] == Www;
    forall j | 0 <= j < n ensures !OccursAt(h, Www, j) {
      assert h[j..j + |Www|][0] == h[j] == prefix[j];
    }
    StripRemovesFirstOccurrence(h, n);
    assert h[..n] == prefix;
    assert h[n + |Www|..] == rest;
  }

  /** A parse failure resolves to no domain; a bare "www." host resolves to the falsy "". */
  lemma UnresolvedHosts()
    ensures !Resolved(ExtractDomain(None))
    ensures !Resolved(ExtractDomain(Some("www.")))
  {
    StripLeadingWww("");
  }
}
