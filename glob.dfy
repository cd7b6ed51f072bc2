/**
 * The allow-list matcher `_pattern_any`: a name is allowed when it matches any
 * of the shell-style patterns listed for a slot. Patterns are read with `*`
 * (any run of characters) and `?` (any one character); every other character
 * matches itself.
 */
module Glob {

  /** True when the pattern has no wildcard. */
  predicate Plain(pat: string)
  {
    forall i :: 0 <= i < |pat| ==> pat[i] != '*' && pat[i] != '?'
  }

  /** The number of pattern characters other than `*`: each stands for exactly one name character. */
  function Width(pat: string): nat
  {
    if pat == [] then 0 else (if pat[0] == '*' then 0 else 1) + Width(pat[1..])
  }

  /**
   * `fnmatch.fnmatch(name, pat)` for literal characters, `*` and `?`: a name
   * that matches has at least one character per non-`*` pattern character, and
   * exactly as many when the pattern has no `*`.
   */
  predicate Match(name: string, pat: string)
    decreases |pat|, |name|
    ensures Match(name, pat) ==> Width(pat) <= |name|
    ensures Match(name, pat) && '*' !in pat ==> |name| == |pat|
  {
    if pat == [] then name == []
    else if pat[0] == '*' then Match(name, pat[1..]) || (name != [] && Match(name[1..], pat))
    else name != [] && (pat[0] == '?' || pat[0] == name[0]) && Match(name[1..], pat[1..])
  }

  /** `_pattern_any`: the patterns are tried in order until one matches. */
  function AnyMatch(name: string, pats: seq<string>): (r: bool)
    ensures r <==> exists p :: p in pats && Match(name, p)
  {
    if pats == [] then false
    else if Match(name, pats[0]) then assert pats[0] in pats; true
    else
      assert forall p :: p in pats[1..] ==> p in pats;
      assert forall p :: p in pats && p != pats[0] ==> p in pats[1..];
      AnyMatch(name, pats[1..])
  }

  /** A pattern without wildcards matches exactly the name it spells. */
  lemma {:induction false} PlainMatchesItself(name: string, pat: string)
    requires Plain(pat)
    ensures Match(name, pat) <==> name == pat
    decreases |pat|
  {
    if pat != [] {
      assert Plain(pat[1..]) by {
        forall i | 0 <= i < |pat[1..]| ensures pat[1..][i] != '*' && pat[1..][i] != '?' {
          assert pat[1..][i] == pat[i + 1];
        }
      }
      if name != [] {
        PlainMatchesItself(name[1..], pat[1..]);
        if name == pat {
          assert name[1..] == pat[1..];
        } else if name[0] == pat[0] {
          assert name == [name[0]] + name[1..] && pat == [pat[0]] + pat[1..];
        }
      }
    }
  }

  /** `*` alone matches every name. */
  lemma {:induction false} StarMatchesAll(name: string)
    ensures Match(name, "*")
    decreases |name|
  {
    assert "*"[1..] == [];
    if name != [] {
      StarMatchesAll(name[1..]);
    }
  }

  /** `prefix*` with a plain prefix matches exactly the names that start with it. */
  lemma {:induction false} PrefixStarMatches(name: string, prefix: string)
    requires Plain(prefix)
    ensures Match(name, prefix + "*") <==> |prefix| <= |name| && name[..|prefix|] == prefix
    decreases |prefix|
  {
    if prefix == [] {
      assert prefix + "*" == "*";
      StarMatchesAll(name);
    } else {
      var pat := prefix + "*";
      assert pat[0] == prefix[0] && pat[1..] == prefix[1..] + "*";
      assert Plain(prefix[1..]) by {
        forall i | 0 <= i < |prefix[1..]| ensures prefix[1..][i] != '*' && prefix[1..][i] != '?' {
          assert prefix[1..][i] == prefix[i + 1];
        }
      }
      assert prefix[0] != '*' && prefix[0] != '?';
      if name != [] {
        PrefixStarMatches(name[1..], prefix[1..]);
        if |prefix| <= |name| {
          assert name[..|prefix|] == [name[0]] + name[1..][..|prefix| - 1];
          assert prefix == [prefix[0]] + prefix[1..];
        }
      }
    }
  }
}
