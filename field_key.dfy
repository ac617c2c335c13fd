/** The custom-field key the adapter derives from a field name: trim, lower-case,
    replace every run of characters outside `[a-z0-9]` by one underscore, then strip
    the underscores at both ends (`slugifyFieldKey` in convertkit.ts). */
module FieldKey {
  import opened Base

  /** The characters `[a-z0-9]` that survive the replacement step. */
  predicate IsKeyChar(c: char) {
    'a' <= c <= 'z' || '0' <= c <= '9'
  }

  /** What a well-formed key looks like: only `[a-z0-9_]`, no underscore at either
      end and never two underscores in a row. */
  predicate IsFieldKey(k: string) {
    KeyShaped(k) && (k == "" || (k[0] != '_' && k[|k| - 1] != '_'))
  }

  /** Only `[a-z0-9_]`, never two underscores in a row. */
  predicate KeyShaped(s: string) {
    && (forall i :: 0 <= i < |s| ==> IsKeyChar(s[i]) || s[i] == '_')
    && (forall i :: 0 <= i < |s| - 1 ==> !(s[i] == '_' && s[i + 1] == '_'))
  }

  /** Every infix of a key-shaped string is key-shaped. */
  lemma InfixKeyShaped(s: string, lo: int, hi: int)
    requires KeyShaped(s) && 0 <= lo <= hi <= |s|
    ensures KeyShaped(s[lo..hi])
  {
    var t := s[lo..hi];
    forall i | 0 <= i < |t| - 1 ensures !(t[i] == '_' && t[i + 1] == '_') {
      assert t[i] == s[lo + i] && t[i + 1] == s[lo + i + 1];
    }
  }

  /** `s.replace(/[^a-z0-9]+/g, "_")`, scanning left to right; `inRun` says that the
      previous character already opened a replaced run. */
  function CollapseRuns(s: string, inRun: bool): (r: string)
    ensures KeyShaped(r)
    ensures inRun && r != "" ==> r[0] != '_'
    ensures |r| <= |s|
  {
    if s == "" then ""
    else if IsKeyChar(s[0]) then [s[0]] + CollapseRuns(s[1..], false)
    else if inRun then CollapseRuns(s[1..], true)
    else "_" + CollapseRuns(s[1..], true)
  }

  /** The `^_+` half of the final replacement. */
  function DropLeadingUnderscores(s: string): (r: string)
    ensures |r| <= |s| && r == s[|s| - |r|..]
    ensures r == "" || r[0] != '_'
  {
    if s != "" && s[0] == '_' then DropLeadingUnderscores(s[1..]) else s
  }

  /** The `_+$` half of the final replacement. */
  function DropTrailingUnderscores(s: string): (r: string)
    ensures |r| <= |s| && r == s[..|r|]
    ensures r == "" || r[|r| - 1] != '_'
  {
    if s != "" && s[|s| - 1] == '_' then DropTrailingUnderscores(s[..|s| - 1]) else s
  }

  /** `slugifyFieldKey(input)` step by step, as the adapter writes it: trim, lower-case,
      collapse runs, strip underscores. Always a well-formed key, never longer than the
      input. */
  function SlugPipeline(input: string): (key: string)
    ensures IsFieldKey(key)
    ensures |key| <= |input|
  {
    var collapsed := CollapseRuns(Lower(Trim(input)), false);
    var stripped := DropLeadingUnderscores(collapsed);
    var key := DropTrailingUnderscores(stripped);
    InfixKeyShaped(collapsed, |collapsed| - |stripped|, |collapsed|);
    InfixKeyShaped(stripped, 0, |key|);
    assert key == "" || key[0] == stripped[0];
    key
  }

  /** The same key in one left-to-right pass: a character that lower-cases into
      `[a-z0-9]` is kept, lower-cased; a run of other characters becomes one underscore,
      and only between two kept characters. `kept` says something was kept already,
      `gap` that a run has been passed since the last kept character. */
  function KeyScan(s: string, kept: bool, gap: bool): string {
    if s == "" then ""
    else if IsKeyChar(LowerChar(s[0])) then
      (if gap then "_" else "") + [LowerChar(s[0])] + KeyScan(s[1..], true, false)
    else KeyScan(s[1..], kept, kept)
  }

  /** Stripping trailing underscores never reaches into a front part that does not end
      with one. */
  lemma {:induction false} DropTrailingAfter(a: string, b: string)
    requires a == "" || a[|a| - 1] != '_'
    ensures DropTrailingUnderscores(a + b) == a + DropTrailingUnderscores(b)
    decreases |b|
  {
    if b == "" {
      assert a + b == a;
    } else if b[|b| - 1] == '_' {
      assert (a + b)[..|a + b| - 1] == a + b[..|b| - 1];
      DropTrailingAfter(a, b[..|b| - 1]);
    }
  }

  /** Collapsing from the start of a run gives what stripping the leading underscore of
      an ordinary collapse gives. */
  lemma DropLeadingOfCollapse(x: string)
    ensures DropLeadingUnderscores(CollapseRuns(x, false)) == CollapseRuns(x, true)
  {
    if x != "" && !IsKeyChar(x[0]) {
      var t := CollapseRuns(x[1..], true);
      assert CollapseRuns(x, false) == "_" + t;
      assert ("_" + t)[1..] == t;
    }
  }

  /** Lowering a non-empty string lowers its first character and then the rest. */
  lemma LowerFront(s: string)
    requires s != ""
    ensures Lower(s)[0] == LowerChar(s[0]) && Lower(s)[1..] == Lower(s[1..])
  {
  }

  /** The scan before anything is kept, against collapsing the lowered string from the
      start of a run and stripping the trailing underscores. */
  lemma {:induction false} ScanFromStart(s: string)
    ensures KeyScan(s, false, false) == DropTrailingUnderscores(CollapseRuns(Lower(s), true))
    decreases |s|, 1
  {
    if s != "" {
      LowerFront(s);
      var c := LowerChar(s[0]);
      if IsKeyChar(c) {
        ScanAfterKept(s[1..]);
        DropTrailingAfter([c], CollapseRuns(Lower(s[1..]), false));
      } else {
        ScanFromStart(s[1..]);
      }
    }
  }

  /** The scan right after a kept character, against an ordinary collapse. */
  lemma {:induction false} ScanAfterKept(s: string)
    ensures KeyScan(s, true, false) == DropTrailingUnderscores(CollapseRuns(Lower(s), false))
    decreases |s|, 0
  {
    if s != "" {
      LowerFront(s);
      var c := LowerChar(s[0]);
      if IsKeyChar(c) {
        ScanAfterKept(s[1..]);
        DropTrailingAfter([c], CollapseRuns(Lower(s[1..]), false));
      } else {
        ScanInGap(s[1..]);
      }
    }
  }

  /** The scan inside a run after something was kept, against an underscore followed
      by a collapse from the start of a run. */
  lemma {:induction false} ScanInGap(s: string)
    ensures KeyScan(s, true, true) == DropTrailingUnderscores("_" + CollapseRuns(Lower(s), true))
    decreases |s|, 0
  {
    if s == "" {
      assert ("_" + "")[..0] == "";
    } else {
      LowerFront(s);
      var c := LowerChar(s[0]);
      if IsKeyChar(c) {
        var tail := CollapseRuns(Lower(s[1..]), false);
        ScanAfterKept(s[1..]);
        DropTrailingAfter("_" + [c], tail);
        assert "_" + CollapseRuns(Lower(s), true) == ("_" + [c]) + tail;
      } else {
        ScanInGap(s[1..]);
      }
    }
  }

  /** Trimmable characters are never kept. */
  lemma TrimmableNotKept(c: char)
    requires IsTrimmable(c)
    ensures !IsKeyChar(LowerChar(c))
  {
  }

  /** Characters that are not kept change nothing once nothing kept follows them. */
  lemma {:induction false} ScanIgnoresTail(a: string, w: string, kept: bool, gap: bool)
    requires forall i :: 0 <= i < |w| ==> !IsKeyChar(LowerChar(w[i]))
    ensures KeyScan(a + w, kept, gap) == KeyScan(a, kept, gap)
    decreases |a| + |w|
  {
    if a == "" {
      assert a + w == w;
      if w != "" {
        ScanIgnoresTail("", w[1..], kept, kept);
        assert "" + w[1..] == w[1..];
      }
    } else {
      assert (a + w)[0] == a[0] && (a + w)[1..] == a[1..] + w;
      if IsKeyChar(LowerChar(a[0])) {
        ScanIgnoresTail(a[1..], w, true, false);
      } else {
        ScanIgnoresTail(a[1..], w, kept, kept);
      }
    }
  }

  /** Characters that are not kept change nothing before anything has been kept. */
  lemma {:induction false} ScanIgnoresHead(s: string, k: nat)
    requires k <= |s|
    requires forall i :: 0 <= i < k ==> !IsKeyChar(LowerChar(s[i]))
    ensures KeyScan(s, false, false) == KeyScan(s[k..], false, false)
  {
    if k > 0 {
      assert forall i :: 0 <= i < k - 1 ==> s[1..][i] == s[i + 1];
      ScanIgnoresHead(s[1..], k - 1);
      assert s[1..][k - 1..] == s[k..];
    }
  }

  /** Dropping trimmable characters at the front changes nothing for the scan. */
  lemma ScanIgnoresTrimStart(s: string)
    ensures KeyScan(s, false, false) == KeyScan(TrimStart(s), false, false)
  {
    var front := TrimStart(s);
    forall i | 0 <= i < |s| - |front| ensures !IsKeyChar(LowerChar(s[i])) {
      TrimmableNotKept(s[i]);
    }
    ScanIgnoresHead(s, |s| - |front|);
  }

  /** Dropping trimmable characters at the back changes nothing for the scan. */
  lemma ScanIgnoresTrimEnd(s: string)
    ensures KeyScan(s, false, false) == KeyScan(TrimEnd(s), false, false)
  {
    var t := TrimEnd(s);
    var w := s[|t|..];
    forall i | 0 <= i < |w| ensures !IsKeyChar(LowerChar(w[i])) {
      TrimmableNotKept(s[|t| + i]);
    }
    assert s == t + w;
    ScanIgnoresTail(t, w, false, false);
  }

  /** Trimming first changes nothing for the scan. */
  lemma ScanIgnoresTrim(s: string)
    ensures KeyScan(s, false, false) == KeyScan(Trim(s), false, false)
  {
    ScanIgnoresTrimStart(s);
    ScanIgnoresTrimEnd(TrimStart(s));
  }

  /** The one-pass scan computes exactly the adapter's pipeline, for every input. */
  lemma ScanMatchesPipeline(input: string)
    ensures KeyScan(input, false, false) == SlugPipeline(input)
  {
    var t := Trim(input);
    ScanIgnoresTrim(input);
    ScanFromStart(t);
    DropLeadingOfCollapse(Lower(t));
  }

  /** `slugifyFieldKey(input)`, computed by the one-pass scan (equal to `SlugPipeline`
      by `ScanMatchesPipeline`): always a well-formed key, never longer than the input. */
  function SlugifyFieldKey(input: string): (key: string)
    ensures IsFieldKey(key)
    ensures |key| <= |input|
  {
    ScanMatchesPipeline(input);
    KeyScan(input, false, false)
  }

  /** Replacing runs leaves a well-formed key alone (when a run was just opened the key
      must not start with the underscore that would merge into it). */
  lemma {:induction false} CollapseRunsOfKey(k: string, inRun: bool)
    requires KeyShaped(k)
    requires inRun ==> k == "" || k[0] != '_'
    ensures CollapseRuns(k, inRun) == k
  {
    if k != "" {
      if IsKeyChar(k[0]) {
        InfixKeyShaped(k, 1, |k|);
        CollapseRunsOfKey(k[1..], false);
      } else {
        assert k[0] == '_' && !inRun;
        assert |k| > 1 ==> k[1] != '_' by {
          if |k| > 1 { assert !(k[0] == '_' && k[1] == '_'); }
        }
        InfixKeyShaped(k, 1, |k|);
        CollapseRunsOfKey(k[1..], true);
      }
    }
  }

  /** Slugifying a well-formed key returns it unchanged. */
  lemma SlugifyFixesKeys(k: string)
    requires IsFieldKey(k)
    ensures SlugifyFieldKey(k) == k
  {
    ScanMatchesPipeline(k);
    PipelineFixesKeys(k);
  }

  /** The pipeline leaves a well-formed key unchanged. */
  lemma PipelineFixesKeys(k: string)
    requires IsFieldKey(k)
    ensures SlugPipeline(k) == k
  {
    assert forall i :: 0 <= i < |k| ==> !IsTrimmable(k[i]);
    TrimNoTrimmable(k);
    LowerFixesLowercase(k);
    CollapseRunsOfKey(k, false);
    assert DropLeadingUnderscores(k) == k;
    assert DropTrailingUnderscores(k) == k;
  }

  /** `slugifyFieldKey` is idempotent. */
  lemma SlugifyIdempotent(input: string)
    ensures SlugifyFieldKey(SlugifyFieldKey(input)) == SlugifyFieldKey(input)
  {
    SlugifyFixesKeys(SlugifyFieldKey(input));
  }

  /** A string of `[a-z0-9]` only is key-shaped and has no underscore to strip. */
  lemma KeyCharsAreKeyShaped(k: string)
    requires forall i :: 0 <= i < |k| ==> IsKeyChar(k[i])
    ensures KeyShaped(k) && (k == "" || (k[0] != '_' && k[|k| - 1] != '_'))
  {
  }

  /** Stripping underscores leaves a string that neither starts nor ends with one. */
  lemma StripKeepsKey(k: string)
    requires k == "" || (k[0] != '_' && k[|k| - 1] != '_')
    ensures DropLeadingUnderscores(k) == k && DropTrailingUnderscores(k) == k
  {
  }

  /** A name made of letters and digits only slugifies to its lowering. */
  lemma SlugifyOfAlphanumeric(s: string)
    requires forall i :: 0 <= i < |s| ==> IsKeyChar(LowerChar(s[i]))
    ensures SlugifyFieldKey(s) == Lower(s)
  {
    ScanMatchesPipeline(s);
    PipelineOfAlphanumeric(s);
  }

  /** The pipeline lowers a name made of letters and digits and changes nothing else. */
  lemma PipelineOfAlphanumeric(s: string)
    requires forall i :: 0 <= i < |s| ==> IsKeyChar(LowerChar(s[i]))
    ensures SlugPipeline(s) == Lower(s)
  {
    assert forall i :: 0 <= i < |s| ==> !IsTrimmable(s[i]) by {
      forall i | 0 <= i < |s| ensures !IsTrimmable(s[i]) {
        assert IsKeyChar(LowerChar(s[i]));
      }
    }
    TrimNoTrimmable(s);
    var lowered := Lower(s);
    forall i | 0 <= i < |lowered| ensures IsKeyChar(lowered[i]) {
      LowerPointwise(s, i);
    }
    KeyCharsAreKeyShaped(lowered);
    CollapseRunsOfKey(lowered, false);
    StripKeepsKey(lowered);
  }
}
