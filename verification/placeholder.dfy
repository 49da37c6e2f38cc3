/**
 * The config key rewrite `data_id.replace("{}", active)`: every
 * occurrence of the two-character token `{}` in the key is replaced by the
 * active profile name, scanning left to right and resuming after each
 * match, as Rust's `str::replace` does.
 */
module Placeholder {

  const PLACEHOLDER: string := "{}"

  /** `s` holds the token `{}` nowhere. */
  predicate PlaceholderFree(s: string) {
    forall i :: 0 <= i < |s| - 1 ==> !(s[i] == '{' && s[i + 1] == '}')
  }

  /**
   * A profile name no key can turn into a token: it is non-empty, holds no
   * token itself, does not start with `}` and does not end with `{`.
   */
  predicate SafeProfile(active: string) {
    && |active| > 0
    && PlaceholderFree(active)
    && active[0] != '}'
    && active[|active| - 1] != '{'
  }

  /** `s` begins with the token `{}`. */
  predicate StartsWithPlaceholder(s: string) {
    |s| >= 2 && s[0] == '{' && s[1] == '}'
  }

  /** The number of positions at which a token `{}` starts in `s`. */
  function Occurrences(s: string): nat
    decreases |s|
  {
    if |s| < 2 then 0
    else (if StartsWithPlaceholder(s) then 1 else 0) + Occurrences(s[1..])
  }

  /**
   * `key.replace("{}", active)`. A key in which no token starts is returned
   * as it is.
   */
  function Substitute(key: string, active: string): (r: string)
    ensures Occurrences(key) == 0 ==> r == key
    decreases |key|
  {
    if |key| < 2 then key
    else if StartsWithPlaceholder(key) then active + Substitute(key[2..], active)
    else [key[0]] + Substitute(key[1..], active)
  }

  /**
   * Every token is replaced exactly once: each trades its two characters for
   * the profile name.
   */
  lemma {:induction false} SubstituteLength(key: string, active: string)
    ensures |Substitute(key, active)| == |key| + Occurrences(key) * (|active| - 2)
    decreases |key|
  {
    if |key| >= 2 {
      SubstituteStep(key, active);
      if StartsWithPlaceholder(key) {
        SubstituteLength(key[2..], active);
        OccurrencesAfterToken(key);
        Distribute(Occurrences(key[2..]), |active| - 2);
      } else {
        SubstituteLength(key[1..], active);
      }
    }
  }

  /** A leading token counts once, and its `}` starts no second one. */
  lemma OccurrencesAfterToken(s: string)
    requires StartsWithPlaceholder(s)
    ensures Occurrences(s) == 1 + Occurrences(s[2..])
  {
    assert s[1..][1..] == s[2..];
  }

  lemma Distribute(n: int, d: int)
    ensures (1 + n) * d == d + n * d
  {
  }

  /** The count is zero exactly when the token occurs nowhere. */
  lemma {:induction false} OccurrencesZero(s: string)
    ensures Occurrences(s) == 0 <==> PlaceholderFree(s)
    decreases |s|
  {
    if |s| >= 2 {
      OccurrencesZero(s[1..]);
      var t := s[1..];
      assert PlaceholderFree(t) ==> !StartsWithPlaceholder(s) ==> PlaceholderFree(s) by {
        if PlaceholderFree(t) && !StartsWithPlaceholder(s) {
          forall i | 0 <= i < |s| - 1 ensures !(s[i] == '{' && s[i + 1] == '}') {
            if i > 0 {
              assert s[i] == t[i - 1] && s[i + 1] == t[i];
            }
          }
        }
      }
      assert PlaceholderFree(s) ==> PlaceholderFree(t) by {
        if PlaceholderFree(s) {
          forall i | 0 <= i < |t| - 1 ensures !(t[i] == '{' && t[i + 1] == '}') {
            assert t[i] == s[i + 1] && t[i + 1] == s[i + 2];
          }
        }
      }
    }
  }

  /** A key without the token is left as it is, whatever the profile. */
  lemma SubstituteWithoutPlaceholder(key: string, active: string)
    requires PlaceholderFree(key)
    ensures Substitute(key, active) == key
  {
    OccurrencesZero(key);
  }

  /**
   * Each token is replaced on its own: the text on either side of a token
   * is rewritten independently and the token becomes the profile name.
   */
  lemma {:induction false} SubstituteSplit(a: string, b: string, active: string)
    ensures Substitute(a + PLACEHOLDER + b, active)
         == Substitute(a, active) + active + Substitute(b, active)
    decreases |a|
  {
    var s := a + PLACEHOLDER + b;
    if |a| == 0 {
      assert StartsWithPlaceholder(s) && s[2..] == b;
    } else {
      var n := if StartsWithPlaceholder(a) then 2 else 1;
      var head := if n == 2 then active else [a[0]];
      assert StartsWithPlaceholder(s) == StartsWithPlaceholder(a) by {
        assert s[0] == a[0];
        assert |a| >= 2 ==> s[1] == a[1];
        assert |a| == 1 ==> s[1] == '{';
      }
      assert s[n..] == a[n..] + PLACEHOLDER + b;
      SubstituteStep(a, active);
      SubstituteStep(s, active);
      SubstituteSplit(a[n..], b, active);
    }
  }

  /** One step of the scan: a leading token, or else a single character. */
  lemma SubstituteStep(s: string, active: string)
    requires |s| > 0
    ensures StartsWithPlaceholder(s) ==> Substitute(s, active) == active + Substitute(s[2..], active)
    ensures !StartsWithPlaceholder(s) ==> Substitute(s, active) == [s[0]] + Substitute(s[1..], active)
  {
    if |s| == 1 {
      assert s == [s[0]] && s[1..] == [];
    }
  }

  /** The first character of a rewritten, non-empty key. */
  lemma SubstituteHead(key: string, active: string)
    requires |key| > 0 && |active| > 0
    ensures |Substitute(key, active)| > 0
    ensures Substitute(key, active)[0] == if StartsWithPlaceholder(key) then active[0] else key[0]
  {
  }

  /** `x + y` is free of the token when both are and the seam does not form one. */
  lemma PlaceholderFreeConcat(x: string, y: string)
    requires PlaceholderFree(x) && PlaceholderFree(y)
    requires |x| > 0 && |y| > 0 ==> !(x[|x| - 1] == '{' && y[0] == '}')
    ensures PlaceholderFree(x + y)
  {
    var s := x + y;
    forall i | 0 <= i < |s| - 1 ensures !(s[i] == '{' && s[i + 1] == '}') {
      if i + 1 < |x| {
        assert s[i] == x[i] && s[i + 1] == x[i + 1];
      } else if i >= |x| {
        assert s[i] == y[i - |x|] && s[i + 1] == y[i - |x| + 1];
      } else {
        assert s[i] == x[|x| - 1] && s[i + 1] == y[0];
      }
    }
  }

  /**
   * When the profile name is safe, the rewritten key holds no token: every
   * placeholder has been resolved and no new one formed at a seam.
   */
  lemma {:induction false} SubstituteLeavesNoPlaceholder(key: string, active: string)
    requires SafeProfile(active)
    ensures PlaceholderFree(Substitute(key, active))
    decreases |key|
  {
    if |key| < 2 {
    } else if StartsWithPlaceholder(key) {
      SubstituteLeavesNoPlaceholder(key[2..], active);
      PlaceholderFreeConcat(active, Substitute(key[2..], active));
    } else {
      var rest := Substitute(key[1..], active);
      SubstituteLeavesNoPlaceholder(key[1..], active);
      SubstituteHead(key[1..], active);
      assert key[1..][0] == key[1];
      PlaceholderFreeConcat([key[0]], rest);
    }
  }

  /**
   * The condition is also necessary: for every profile name that is not
   * safe, some key rewrites to a text that holds a token.
   */
  lemma SubstituteNeedsSafeProfile(active: string)
    requires !SafeProfile(active)
    ensures exists key :: !PlaceholderFree(Substitute(key, active))
  {
    if |active| == 0 {
      var key: string := "{{}}";
      assert !StartsWithPlaceholder(key) && key[1..] == "{}}";
      assert StartsWithPlaceholder("{}}") && "{}}"[2..] == "}";
      var r := Substitute(key, active);
      assert r == "{}";
      assert r[0] == '{' && r[1] == '}';
    } else if !PlaceholderFree(active) {
      var key: string := PLACEHOLDER;
      assert StartsWithPlaceholder(key) && key[2..] == [];
      assert Substitute(key, active) == active;
    } else if active[0] == '}' {
      var key: string := "{{}";
      assert !StartsWithPlaceholder(key) && key[1..] == PLACEHOLDER;
      assert StartsWithPlaceholder(PLACEHOLDER) && PLACEHOLDER[2..] == [];
      var r := Substitute(key, active);
      assert r == "{" + active;
      assert r[0] == '{' && r[1] == '}';
    } else {
      var key: string := "{}}";
      assert StartsWithPlaceholder(key) && key[2..] == "}";
      var r := Substitute(key, active);
      assert r == active + "}";
      assert r[|active| - 1] == '{' && r[|active|] == '}';
    }
  }

  /**
   * For a safe profile name, rewriting an already rewritten key is a no-op,
   * so repeating the rewrite is harmless.
   */
  lemma SubstituteIdempotent(key: string, active: string)
    requires SafeProfile(active)
    ensures Substitute(Substitute(key, active), active) == Substitute(key, active)
  {
    SubstituteLeavesNoPlaceholder(key, active);
    SubstituteWithoutPlaceholder(Substitute(key, active), active);
  }

  /**
   * A profile name that merely lacks the token can still complete one with a
   * brace of the key, and then a second rewrite changes the key again.
   */
  lemma SubstituteCanCreatePlaceholder()
    ensures PlaceholderFree("}")
    ensures Substitute("{{}", "}") == "{}"
    ensures !PlaceholderFree(Substitute("{{}", "}"))
    ensures Substitute(Substitute("{{}", "}"), "}") != Substitute("{{}", "}")
  {
    var key: string := "{{}";
    assert !StartsWithPlaceholder(key) && key[1..] == PLACEHOLDER;
    assert Substitute(PLACEHOLDER, "}") == "}";
    assert Substitute("}", "}") == "}";
    assert StartsWithPlaceholder("{}");
  }

  /**
   * A key with a single token, such as `app-{}.yaml`, becomes the text
   * before it, the profile name, and the text after it.
   */
  lemma SubstituteSingle(pre: string, post: string, active: string)
    requires PlaceholderFree(pre) && PlaceholderFree(post)
    ensures Substitute(pre + PLACEHOLDER + post, active) == pre + active + post
  {
    SubstituteSplit(pre, post, active);
    SubstituteWithoutPlaceholder(pre, active);
    SubstituteWithoutPlaceholder(post, active);
  }
}
