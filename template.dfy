/** The Jenkins trigger URL: the fixed template, how the dispatcher fills it,
    and how the filled fields can be read back from a URL. */
module Template {
  import opened Text
  import opened Wrappers

  // The literal text of the source's trigger URL template around its four
  // `{}` placeholders, in order.
  const JobPrefix: string := "https://jenkins.harryyoud.co.uk/job/"
  const ChangeInfix: string := "/buildWithParameters?token=TOKEN_GOES_HERE&CHANGE="
  const PatchsetInfix: string := "&PATCHSET="
  const StatusInfix: string := "&STATUS="
  const SilentSuffix: string := "&SILENT=false"

  const Pieces: seq<string> := [JobPrefix, ChangeInfix, PatchsetInfix, StatusInfix, SilentSuffix]

  /** Positional `str.format` over a template cut at its placeholders: the
      i-th placeholder receives `args[i]`, and the literal text is kept. */
  function Format(pieces: seq<string>, args: seq<string>): (r: string)
    requires |pieces| == |args| + 1
    ensures StartsWith(r, pieces[0])
    ensures EndsWith(r, pieces[|pieces| - 1])
    ensures args == [] ==> r == pieces[0]
    decreases |args|
  {
    if args == [] then pieces[0]
    else
      var rest := Format(pieces[1..], args[1..]);
      assert (pieces[0] + (args[0] + rest))[..|pieces[0]|] == pieces[0];
      assert (pieces[0] + (args[0] + rest))[|pieces[0] + args[0]|..] == rest;
      pieces[0] + (args[0] + rest)
  }

  /** The parameters of one trigger call: job name, change number, patchset
      number and the visibility token sent as STATUS. */
  datatype TriggerRequest = TriggerRequest(job: string, change: nat, patchset: nat, status: string)

  /** The dispatcher only ever sends one of these two tokens. */
  predicate ValidStatus(t: string) {
    t == "PRIVATE" || t == "NEW"
  }

  /** The URL of a trigger call: the template filled in order with the job,
      the change number, the patchset number and the status token. */
  function BuildUrl(r: TriggerRequest): (url: string) {
    Format(Pieces, [r.job, NatToString(r.change), NatToString(r.patchset), r.status])
  }

  /** Every trigger URL starts with the Jenkins job path and ends with `&SILENT=false`. */
  lemma BuildUrlEnds(r: TriggerRequest)
    ensures StartsWith(BuildUrl(r), JobPrefix)
    ensures EndsWith(BuildUrl(r), SilentSuffix)
  {
    assert Pieces[|Pieces| - 1] == SilentSuffix;
  }

  /** Formatting a five-piece template, placeholder by placeholder. */
  lemma FormatFourFields(q: seq<string>, a: seq<string>)
    requires |q| == 5 && |a| == 4
    ensures Format(q, a) == q[0] + (a[0] + (q[1] + (a[1] + (q[2] + (a[2] + (q[3] + (a[3] + q[4])))))))
  {
    assert q[3..][1..] == q[4..] && a[3..][1..] == [];
    assert Format(q[3..], a[3..]) == q[3] + (a[3] + q[4]);
    assert q[2..][1..] == q[3..] && a[2..][1..] == a[3..];
    assert Format(q[2..], a[2..]) == q[2] + (a[2] + Format(q[3..], a[3..]));
    assert q[1..][1..] == q[2..] && a[1..][1..] == a[2..];
    assert Format(q[1..], a[1..]) == q[1] + (a[1] + Format(q[2..], a[2..]));
  }

  /** The filled template, field by field. */
  lemma BuildUrlFields(r: TriggerRequest)
    ensures BuildUrl(r) == JobPrefix + r.job + ChangeInfix + NatToString(r.change)
                           + PatchsetInfix + NatToString(r.patchset)
                           + StatusInfix + r.status + SilentSuffix
  {
    var c, p := NatToString(r.change), NatToString(r.patchset);
    FormatFourFields(Pieces, [r.job, c, p, r.status]);
    Reassociate(JobPrefix, r.job, ChangeInfix, c, PatchsetInfix, p, StatusInfix, r.status, SilentSuffix);
  }

  lemma Reassociate(x0: string, x1: string, x2: string, x3: string, x4: string,
                    x5: string, x6: string, x7: string, x8: string)
    ensures x0 + (x1 + (x2 + (x3 + (x4 + (x5 + (x6 + (x7 + x8)))))))
         == x0 + x1 + x2 + x3 + x4 + x5 + x6 + x7 + x8
  {
  }

  function StripSuffix(s: string, suffix: string): (r: Option<string>)
    ensures r.Some? <==> EndsWith(s, suffix)
    ensures r.Some? ==> s == r.value + suffix
  {
    if EndsWith(s, suffix) then
      assert s == s[..|s| - |suffix|] + s[|s| - |suffix|..];
      Some(s[..|s| - |suffix|])
    else None
  }

  /** Splits the last field off `s`: the longest suffix whose characters
      satisfy `p`, which must be preceded by the separator `sep`. */
  function TakeField(s: string, sep: string, p: char -> bool): (r: Option<(string, string)>)
    ensures r.Some? ==> s == r.value.0 + sep + r.value.1 && AllSatisfy(r.value.1, p)
  {
    var k := TrailingRun(s, p);
    var field := s[|s| - k..];
    assert s == s[..|s| - k] + field;
    match StripSuffix(s[..|s| - k], sep)
    case None => None
    case Some(rest) => Some((rest, field))
  }

  lemma TakeFieldOfConcat(a: string, sep: string, b: string, p: char -> bool)
    requires |sep| > 0 && !p(sep[|sep| - 1])
    requires AllSatisfy(b, p)
    ensures TakeField(a + sep + b, sep, p) == Some((a, b))
  {
    var s := a + sep + b;
    assert (a + sep)[|a + sep| - 1] == sep[|sep| - 1];
    TrailingRunOfConcat(a + sep, b, p);
    assert s[..|s| - |b|] == a + sep;
    assert s[|s| - |b|..] == b;
    assert (a + sep)[|a|..] == sep;
  }

  /** Cuts a trigger URL at its separators, from its end towards its start,
      into the part before `&CHANGE=` and the change, patchset and status
      fields. Reading from the end lets the job name contain any character. */
  function SplitUrl(u: string): (parts: Option<(string, string, string, string)>) {
    match StripSuffix(u, SilentSuffix)
    case None => None
    case Some(u1) =>
      match TakeField(u1, StatusInfix, IsUpper)
      case None => None
      case Some((u2, status)) =>
        match TakeField(u2, PatchsetInfix, IsDigit)
        case None => None
        case Some((u3, patchset)) =>
          match TakeField(u3, ChangeInfix, IsDigit)
          case None => None
          case Some((head, change)) => Some((head, change, patchset, status))
  }

  /** Reads the fields of a trigger URL back. Only the template's own prefix,
      canonical decimal numbers and the two tokens are accepted. */
  function ParseUrl(u: string): (req: Option<TriggerRequest>) {
    match SplitUrl(u)
    case None => None
    case Some((head, change, patchset, status)) =>
      if StartsWith(head, JobPrefix) && ValidStatus(status) && Canonical(patchset) && Canonical(change)
      then Some(TriggerRequest(head[|JobPrefix|..], DigitsValue(change), DigitsValue(patchset), status))
      else None
  }

  lemma StripSuffixOfConcat(a: string, b: string)
    ensures StripSuffix(a + b, b) == Some(a)
  {
    assert (a + b)[|a|..] == b;
  }

  /** Each separator ends in `=`, which is neither a digit nor an upper-case letter. */
  lemma SeparatorsEndInEquals()
    ensures ChangeInfix[|ChangeInfix| - 1] == '='
    ensures PatchsetInfix[|PatchsetInfix| - 1] == '='
    ensures StatusInfix[|StatusInfix| - 1] == '='
  {
  }

  /** Cutting a filled template at its separators gives back its fields. */
  lemma SplitFilledUrl(u: string, head: string, c: string, p: string, status: string)
    requires AllSatisfy(c, IsDigit) && AllSatisfy(p, IsDigit) && AllSatisfy(status, IsUpper)
    requires u == head + ChangeInfix + c + PatchsetInfix + p + StatusInfix + status + SilentSuffix
    ensures SplitUrl(u) == Some((head, c, p, status))
  {
    var u3 := head + ChangeInfix + c;
    var u2 := u3 + PatchsetInfix + p;
    var u1 := u2 + StatusInfix + status;
    SeparatorsEndInEquals();
    StripSuffixOfConcat(u1, SilentSuffix);
    TakeFieldOfConcat(u2, StatusInfix, status, IsUpper);
    TakeFieldOfConcat(u3, PatchsetInfix, p, IsDigit);
    TakeFieldOfConcat(head, ChangeInfix, c, IsDigit);
  }

  /** Reading a URL whose fields are well formed. */
  lemma ParseSplitUrl(u: string, head: string, c: string, p: string, status: string)
    requires SplitUrl(u) == Some((head, c, p, status))
    requires StartsWith(head, JobPrefix) && ValidStatus(status) && Canonical(p) && Canonical(c)
    ensures ParseUrl(u) == Some(TriggerRequest(head[|JobPrefix|..], DigitsValue(c), DigitsValue(p), status))
  {
  }

  /** Reading a built URL back gives the request it was built from. */
  lemma ParseBuildUrl(r: TriggerRequest)
    requires ValidStatus(r.status)
    ensures ParseUrl(BuildUrl(r)) == Some(r)
  {
    var u := BuildUrl(r);
    BuildUrlFields(r);
    var c, p := NatToString(r.change), NatToString(r.patchset);
    var head := JobPrefix + r.job;
    assert AllSatisfy(r.status, IsUpper);
    SplitFilledUrl(u, head, c, p, r.status);
    assert StartsWith(head, JobPrefix) && head[|JobPrefix|..] == r.job by {
      assert head[..|JobPrefix|] == JobPrefix;
    }
    DigitsValueOfNatToString(r.change);
    DigitsValueOfNatToString(r.patchset);
    ParseSplitUrl(u, head, c, p, r.status);
  }

  /** Joining the cut-out fields with the separators gives back the URL. */
  lemma SplitUrlJoins(u: string)
    requires SplitUrl(u).Some?
    ensures var (head, change, patchset, status) := SplitUrl(u).value;
      u == head + ChangeInfix + change + PatchsetInfix + patchset + StatusInfix + status + SilentSuffix
      && AllSatisfy(change, IsDigit) && AllSatisfy(patchset, IsDigit) && AllSatisfy(status, IsUpper)
  {
  }

  /** What a successful read establishes about the URL's fields. */
  lemma ParsedUrlFields(u: string)
    ensures ParseUrl(u).Some? ==> SplitUrl(u).Some?
    ensures ParseUrl(u).Some? ==>
      (var (head, change, patchset, status) := SplitUrl(u).value;
       StartsWith(head, JobPrefix) && ValidStatus(status) && Canonical(patchset) && Canonical(change) &&
       ParseUrl(u).value == TriggerRequest(head[|JobPrefix|..], DigitsValue(change), DigitsValue(patchset), status))
  {
  }

  /** Every URL that reads back is the URL of what it reads back as. */
  lemma BuildParsedUrl(u: string)
    ensures ParseUrl(u).Some? ==> ValidStatus(ParseUrl(u).value.status) && BuildUrl(ParseUrl(u).value) == u
  {
    if ParseUrl(u).Some? {
      var r := ParseUrl(u).value;
      ParsedUrlFields(u);
      SplitUrlJoins(u);
      var (head, change, patchset, status) := SplitUrl(u).value;
      assert r == TriggerRequest(head[|JobPrefix|..], DigitsValue(change), DigitsValue(patchset), status);
      JoinPrefix(head, JobPrefix);
      NatToStringOfDigitsValue(change);
      NatToStringOfDigitsValue(patchset);
      BuildUrlFields(r);
    }
  }

  lemma JoinPrefix(s: string, prefix: string)
    requires StartsWith(s, prefix)
    ensures s == prefix + s[|prefix|..]
  {
    assert s == s[..|prefix|] + s[|prefix|..];
  }

  /** Distinct requests give distinct URLs. */
  lemma BuildUrlInjective(r1: TriggerRequest, r2: TriggerRequest)
    requires ValidStatus(r1.status) && ValidStatus(r2.status)
    requires BuildUrl(r1) == BuildUrl(r2)
    ensures r1 == r2
  {
    ParseBuildUrl(r1);
    ParseBuildUrl(r2);
  }
}
