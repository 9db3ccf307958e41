/**
 * Derivation of the workload name from a prefix, the run's name and its uid
 * (internal/helpers/util.go). The name is used as a DNS label: it names the
 * Job or CronJob and the ConfigMap that carries the contract.
 *
 * Go strings are byte strings. The derivation keeps only ASCII letters and
 * digits and turns every run of other bytes into one hyphen, so a non-ASCII
 * character (all of whose UTF-8 bytes are non-alphanumeric) behaves exactly
 * like one non-alphanumeric character; the model therefore works on `string`.
 */
module JobNames {

  /** Upper-case ASCII letters are lowered by adding 'a' - 'A'; every other character is kept. */
  function Lower(c: char): char {
    if 'A' <= c <= 'Z' then (c as int + ('a' as int - 'A' as int)) as char else c
  }

  predicate IsLowerAlnum(c: char) { 'a' <= c <= 'z' || '0' <= c <= '9' }

  predicate IsLabelChar(c: char) { IsLowerAlnum(c) || c == '-' }

  predicate LowerAlnums(s: string) { forall i :: 0 <= i < |s| ==> IsLowerAlnum(s[i]) }

  predicate LabelChars(s: string) { forall i :: 0 <= i < |s| ==> IsLabelChar(s[i]) }

  predicate NoDoubleHyphen(s: string) {
    forall i :: 0 <= i < |s| - 1 ==> !(s[i] == '-' && s[i + 1] == '-')
  }

  /** Length of the uid suffix. */
  const UidLen := 8
  /** The DNS label ceiling. */
  const MaxLabel := 63
  /** Longest main part: the code reserves two hyphens besides the uid suffix. */
  const MaxMain := MaxLabel - UidLen - 2

  /** The letters and digits of s, lower-cased, in order: what the derivation keeps of its input. */
  function Alnums(s: string): (r: string)
    ensures |r| <= |s|
    ensures LowerAlnums(r)
  {
    if s == [] then []
    else
      var c := Lower(s[|s| - 1]);
      Alnums(s[..|s| - 1]) + (if IsLowerAlnum(c) then [c] else [])
  }

  lemma {:induction false} AlnumsAppend(a: string, b: string)
    ensures Alnums(a + b) == Alnums(a) + Alnums(b)
    decreases |b|
  {
    if b == [] {
      assert a + b == a;
    } else {
      var b' := b[..|b| - 1];
      assert (a + b)[..|a + b| - 1] == a + b';
      assert (a + b)[|a + b| - 1] == b[|b| - 1];
      AlnumsAppend(a, b');
    }
  }

  /** The uid suffix: the first eight letters/digits of uid, lowered, right-padded with '0'. */
  function UidSuffix(uid: string): (r: string)
    ensures |r| == UidLen
    ensures LowerAlnums(r)
  {
    var a := Alnums(uid);
    var kept := if |a| <= UidLen then a else a[..UidLen];
    kept + seq(UidLen - |kept|, _ => '0')
  }

  /** State of the sanitising scan: the output so far and whether it ends in a hyphen. */
  datatype ScanState = ScanState(out: string, lastHyphen: bool)

  /** One byte of the sanitising scan. */
  function Step(st: ScanState, b: char): ScanState {
    var c := Lower(b);
    if IsLowerAlnum(c) then ScanState(st.out + [c], false)
    else if !st.lastHyphen && |st.out| > 0 then ScanState(st.out + ['-'], true)
    else st
  }

  /**
   * The sanitising scan over all of s. Its output holds only lower-case
   * letters, digits and hyphens, never starts with a hyphen, never holds two
   * hyphens in a row, and the flag tells whether it ends in a hyphen.
   */
  function Scan(s: string): (st: ScanState)
    ensures LabelChars(st.out)
    ensures st.out != [] ==> st.out[0] != '-'
    ensures NoDoubleHyphen(st.out)
    ensures st.lastHyphen <==> (st.out != [] && st.out[|st.out| - 1] == '-')
  {
    if s == [] then ScanState([], false) else Step(Scan(s[..|s| - 1]), s[|s| - 1])
  }

  /** s without its trailing hyphens: the longest prefix of s that does not end in '-'. */
  function TrimHyphens(s: string): (r: string)
    ensures |r| <= |s| && r == s[..|r|]
    ensures r == [] || r[|r| - 1] != '-'
    ensures forall i :: |r| <= i < |s| ==> s[i] == '-'
  {
    if s != [] && s[|s| - 1] == '-' then TrimHyphens(s[..|s| - 1]) else s
  }

  /** The sanitised main part `prefix-name`, before truncation. */
  function Sanitized(prefix: string, name: string): (r: string)
    ensures LabelChars(r) && NoDoubleHyphen(r)
    ensures r != [] ==> r[0] != '-' && r[|r| - 1] != '-'
  {
    TrimHyphens(Scan(prefix + "-" + name).out)
  }

  /**
   * The derived name. Whatever the inputs, it is a DNS label of 8 to 62
   * characters: lower-case letters, digits and single hyphens, neither
   * first nor last.
   */
  function JobName(prefix: string, name: string, uid: string): (r: string)
    ensures UidLen <= |r| <= MaxLabel - 1
    ensures LabelChars(r) && NoDoubleHyphen(r)
    ensures r[0] != '-' && r[|r| - 1] != '-'
  {
    var suffix := UidSuffix(uid);
    var main := Sanitized(prefix, name);
    if main == [] then suffix
    else
      var cut := Truncated(main);
      if cut == [] then suffix
      else
        JoinIsLabel(cut, suffix);
        cut + "-" + suffix
  }

  /** The main part cut to MaxMain characters, with the hyphens the cut exposes trimmed. */
  function Truncated(main: string): (cut: string)
    requires LabelChars(main) && NoDoubleHyphen(main)
    requires main != [] ==> main[0] != '-' && main[|main| - 1] != '-'
    ensures |cut| <= MaxMain && |cut| <= |main| && cut == main[..|cut|]
    ensures LabelChars(cut) && NoDoubleHyphen(cut)
    ensures cut != [] ==> cut[0] != '-' && cut[|cut| - 1] != '-'
  {
    var cut := if |main| > MaxMain then TrimHyphens(main[..MaxMain]) else main;
    PrefixIsLabel(main, |cut|);
    cut
  }

  /** A prefix of a hyphen-safe string is hyphen-safe. */
  lemma PrefixIsLabel(s: string, n: nat)
    requires n <= |s| && LabelChars(s) && NoDoubleHyphen(s)
    ensures LabelChars(s[..n]) && NoDoubleHyphen(s[..n])
  {
  }

  /** Joining a label part and the uid suffix with one hyphen gives a label. */
  lemma JoinIsLabel(m: string, suffix: string)
    requires m != [] && m[0] != '-' && m[|m| - 1] != '-'
    requires LabelChars(m) && NoDoubleHyphen(m)
    requires suffix != [] && LowerAlnums(suffix)
    ensures var r := m + "-" + suffix;
      LabelChars(r) && NoDoubleHyphen(r) && r[0] != '-' && r[|r| - 1] != '-'
  {
    var r := m + "-" + suffix;
    forall i | 0 <= i < |r| ensures IsLabelChar(r[i]) {
      if i > |m| { assert r[i] == suffix[i - |m| - 1]; }
    }
    forall i | 0 <= i < |r| - 1 ensures !(r[i] == '-' && r[i + 1] == '-') {
      if i < |m| - 1 {
        assert r[i] == m[i] && r[i + 1] == m[i + 1];
      } else if i == |m| - 1 {
        assert r[i] == m[|m| - 1];
      } else {
        assert r[i + 1] == suffix[i - |m|];
      }
    }
  }

  /** The scan keeps every letter and digit of its input, lowered and in order, and adds only hyphens. */
  lemma {:induction false} ScanKeepsAlnums(s: string)
    ensures Alnums(Scan(s).out) == Alnums(s)
    decreases |s|
  {
    if s != [] {
      var s', b := s[..|s| - 1], s[|s| - 1];
      var st := Scan(s');
      ScanKeepsAlnums(s');
      var c := Lower(b);
      if IsLowerAlnum(c) {
        AlnumsAppend(st.out, [c]);
        assert [c][..0] == [];
      } else if !st.lastHyphen && |st.out| > 0 {
        AlnumsAppend(st.out, ['-']);
        assert ['-'][..0] == [];
      }
    }
  }

  /** Trimming hyphens loses no letter or digit. */
  lemma {:induction false} TrimKeepsAlnums(s: string)
    ensures Alnums(TrimHyphens(s)) == Alnums(s)
    decreases |s|
  {
    if s != [] && s[|s| - 1] == '-' {
      TrimKeepsAlnums(s[..|s| - 1]);
    }
  }

  /**
   * Sanitising `prefix-name` keeps exactly its letters and digits, lowered,
   * in order; what it adds besides them are single hyphens.
   */
  lemma SanitizedKeepsAlnums(prefix: string, name: string)
    ensures Alnums(Sanitized(prefix, name)) == Alnums(prefix + "-" + name)
  {
    ScanKeepsAlnums(prefix + "-" + name);
    TrimKeepsAlnums(Scan(prefix + "-" + name).out);
  }

  /** The scan only ever appends: scanning more input extends the output. */
  lemma {:induction false} ScanExtends(s: string, t: string)
    ensures |Scan(s).out| <= |Scan(s + t).out|
    ensures Scan(s + t).out[..|Scan(s).out|] == Scan(s).out
    decreases |t|
  {
    if t == [] {
      assert s + t == s;
    } else {
      var t' := t[..|t| - 1];
      assert (s + t)[..|s + t| - 1] == s + t';
      ScanExtends(s, t');
    }
  }

  /**
   * Truncation never empties a non-empty main part (the fallback of
   * util.go:58-60 cannot fire) and trims at most one hyphen.
   */
  lemma TruncationKeepsMain(main: string)
    requires main != [] && main[0] != '-' && NoDoubleHyphen(main) && |main| > MaxMain
    ensures MaxMain - 1 <= |TrimHyphens(main[..MaxMain])| <= MaxMain
  {
  }

  /** Trimming hyphens keeps a prefix of s that does not end in a hyphen. */
  lemma TrimKeepsPrefix(s: string, p: string)
    requires p != [] && p[|p| - 1] != '-' && |p| <= |s| && s[..|p|] == p
    ensures |p| <= |TrimHyphens(s)| && TrimHyphens(s)[..|p|] == p
  {
  }

  lemma ScanOfInf()
    ensures Scan("inf-").out == "inf-"
  {
    assert Scan("i").out == "i";
    assert Scan("in").out == "in" by { assert "in"[..1] == "i"; }
    assert Scan("inf").out == "inf" by { assert "inf"[..2] == "in"; }
    assert "inf-"[..3] == "inf";
  }

  /** The name is the uid suffix alone exactly when the sanitised `prefix-name` is empty. */
  lemma JobNameFallback(prefix: string, name: string, uid: string)
    ensures JobName(prefix, name, uid) == UidSuffix(uid) <==> Sanitized(prefix, name) == []
  {
    var main := Sanitized(prefix, name);
    if main != [] && |main| > MaxMain {
      TruncationKeepsMain(main);
    }
  }

  /**
   * The name always ends with the uid suffix; when the sanitised main part
   * is non-empty, it is that part, cut to at most 53 characters (losing at
   * most one more, a trailing hyphen), then '-', then the suffix.
   */
  lemma JobNameShape(prefix: string, name: string, uid: string)
    ensures var r := JobName(prefix, name, uid);
      r[|r| - UidLen..] == UidSuffix(uid)
    ensures var r, main := JobName(prefix, name, uid), Sanitized(prefix, name);
      main != [] ==>
        && |r| >= UidLen + 2
        && r[|r| - UidLen - 1] == '-'
        && var m := r[..|r| - UidLen - 1];
           && 0 < |m| <= MaxMain
           && m == main[..|m|]
           && (|main| <= MaxMain ==> m == main)
           && (|main| > MaxMain ==> |m| >= MaxMain - 1)
  {
    var main := Sanitized(prefix, name);
    if main != [] && |main| > MaxMain {
      TruncationKeepsMain(main);
    }
  }

  /** With the controller's prefix "inf" the name always starts with "inf-". */
  lemma ControllerJobNamePrefix(name: string, uid: string)
    ensures JobName("inf", name, uid)[..4] == "inf-"
  {
    var main := Sanitized("inf", name);
    SanitizedInf(name);
    var cut := if |main| > MaxMain then TrimHyphens(main[..MaxMain]) else main;
    if |main| > MaxMain {
      TrimKeepsPrefix(main[..MaxMain], "inf");
    }
    assert cut[..3] == "inf";
    assert |cut| > 3 ==> cut[3] == '-';
    var r := JobName("inf", name, uid);
    assert r == cut + "-" + UidSuffix(uid);
  }

  lemma SanitizedInf(name: string)
    ensures var main := Sanitized("inf", name);
      |main| >= 3 && main[..3] == "inf" && (|main| > 3 ==> main[3] == '-')
  {
    var out := Scan("inf" + "-" + name).out;
    assert |out| >= 4 && out[..4] == "inf-" by {
      ScanOfInf();
      assert "inf" + "-" + name == "inf-" + name;
      ScanExtends("inf-", name);
    }
    assert out[..3] == "inf";
    TrimKeepsPrefix(out, "inf");
  }

  /** The first loops of ComputeJobName (util.go:7-19): the uid suffix. */
  method ExtractUidSuffix(uid: string) returns (uidPart: string)
    ensures uidPart == UidSuffix(uid)
  {
    uidPart := [];
    var i := 0;
    while i < |uid| && |uidPart| < UidLen
      invariant 0 <= i <= |uid|
      invariant uidPart == Alnums(uid[..i])
      invariant |uidPart| <= UidLen
    {
      var b := uid[i];
      if 'A' <= b <= 'Z' {
        b := (b as int + ('a' as int - 'A' as int)) as char;
      }
      if IsLowerAlnum(b) {
        uidPart := uidPart + [b];
      }
      assert uid[..i + 1][..i] == uid[..i];
      i := i + 1;
    }
    ghost var a := Alnums(uid);
    if i < |uid| {
      assert uid == uid[..i] + uid[i..];
      AlnumsAppend(uid[..i], uid[i..]);
      assert a[..UidLen] == uidPart;
    } else {
      assert uid[..i] == uid;
    }
    ghost var kept := uidPart;
    while |uidPart| < UidLen
      invariant |kept| <= |uidPart| <= UidLen
      invariant uidPart == kept + seq(|uidPart| - |kept|, _ => '0')
    {
      uidPart := uidPart + ['0'];
    }
  }

  /** The sanitising loop of ComputeJobName (util.go:23-39). */
  method SanitizeLoop(main: string) returns (out: string)
    ensures out == Scan(main).out
  {
    out := [];
    var lastHyphen := false;
    for i := 0 to |main|
      invariant ScanState(out, lastHyphen) == Scan(main[..i])
    {
      var b := main[i];
      if 'A' <= b <= 'Z' {
        b := (b as int + ('a' as int - 'A' as int)) as char;
      }
      if IsLowerAlnum(b) {
        out := out + [b];
        lastHyphen := false;
      } else {
        if !lastHyphen && |out| > 0 {
          out := out + ['-'];
          lastHyphen := true;
        }
      }
      assert main[..i + 1][..i] == main[..i];
    }
    assert main[..|main|] == main;
  }

  /** The trailing-hyphen loops of ComputeJobName (util.go:40-42 and 55-57). */
  method TrimTrailingHyphens(s: string) returns (out: string)
    ensures out == TrimHyphens(s)
  {
    out := s;
    while |out| > 0 && out[|out| - 1] == '-'
      invariant TrimHyphens(out) == TrimHyphens(s)
      decreases |out|
    {
      out := out[..|out| - 1];
    }
  }

  /** ComputeJobName (util.go:5-64), proved to compute JobName. */
  method ComputeJobName(prefix: string, name: string, uid: string) returns (r: string)
    ensures r == JobName(prefix, name, uid)
  {
    var uidPart := ExtractUidSuffix(uid);
    var out := SanitizeLoop(prefix + "-" + name);
    out := TrimTrailingHyphens(out);
    if |out| == 0 {
      return uidPart;
    }
    // keep the whole name within the label ceiling
    if |out| > MaxMain {
      out := TrimTrailingHyphens(out[..MaxMain]);
      if |out| == 0 {
        return uidPart;
      }
    }
    r := out + "-" + uidPart;
  }
}
