/**
 * Format dispatch of `extract_archive`: the lower-cased URL is tested against
 * a fixed chain of suffixes, and the first test that succeeds picks the
 * archive library (and, for TAR, the `tarfile.open` mode).
 */
module Formats {
  import opened Wrappers
  import opened Errors
  import opened Text

  /**
   * The `mode` passed to `tarfile.open`: gzip (`r:gz`), bzip2 (`r:bz2`), or
   * `r`, under which tarfile detects any compression by itself.
   */
  datatype TarMode = Gzip | Bzip2 | AutoDetect {
    function Mode(): string {
      match this
      case Gzip => "r:gz"
      case Bzip2 => "r:bz2"
      case AutoDetect => "r"
    }
  }

  /** The five handlers of the dispatch chain. */
  datatype Format = Zip | Tar(compression: TarMode) | SevenZip {
    /** The archive kind named in the "Extracted N files from … archive" log line. */
    function Label(): string {
      match this
      case Zip => "ZIP"
      case Tar(Gzip) => "TAR.GZ"
      case Tar(Bzip2) => "TAR.BZ2"
      case Tar(AutoDetect) => "TAR"
      case SevenZip => "7Z"
    }
  }

  /** One recognised suffix and the handler it selects. */
  datatype Rule = Rule(suffix: string, format: Format)

  /** Every suffix the chain tests, in the order the chain tests them. */
  const RULES: seq<Rule> := [
    Rule(".zip", Zip),
    Rule(".tar.gz", Tar(Gzip)),
    Rule(".tgz", Tar(Gzip)),
    Rule(".tar.bz2", Tar(Bzip2)),
    Rule(".tbz2", Tar(Bzip2)),
    Rule(".tar", Tar(AutoDetect)),
    Rule(".7z", SevenZip)
  ]

  /** The `if`/`elif` chain of `extract_archive`, run on the lower-cased URL. */
  function Dispatch(urlLower: string): Option<Format> {
    if EndsWith(urlLower, ".zip") then Some(Zip)
    else if EndsWith(urlLower, ".tar.gz") || EndsWith(urlLower, ".tgz") then Some(Tar(Gzip))
    else if EndsWith(urlLower, ".tar.bz2") || EndsWith(urlLower, ".tbz2") then Some(Tar(Bzip2))
    else if EndsWith(urlLower, ".tar") then Some(Tar(AutoDetect))
    else if EndsWith(urlLower, ".7z") then Some(SevenZip)
    else None
  }

  /** The format `extract_archive` picks for a URL, or the "Unsupported file format" error carrying that URL. */
  function Resolve(fileUrl: string): Result<Format, Error> {
    match Dispatch(Lower(fileUrl))
    case Some(format) => Ok(format)
    case None => Err(UnsupportedFormat(fileUrl))
  }

  /** A chain of suffix tests run in the order of `rules`: the first rule whose suffix `s` ends with wins. */
  function FirstMatch(rules: seq<Rule>, s: string): Option<Format> {
    if rules == [] then None
    else if EndsWith(s, rules[0].suffix) then Some(rules[0].format)
    else FirstMatch(rules[1..], s)
  }

  predicate AnyMatch(rules: seq<Rule>, s: string) {
    exists r :: r in rules && EndsWith(s, r.suffix)
  }

  // Proof helpers for `SuffixesUnnested`, one per suffix: no other
  // recognised suffix ends in the one named. They state nothing beyond
  // `SuffixesUnnested`; splitting the case analysis this way keeps each
  // proof obligation small for the solver.

  lemma ZipSuffixUnnested(j: nat)
    requires j < |RULES| && j != 0
    ensures !EndsWith(RULES[j].suffix, ".zip")
  {
  }

  lemma TarGzSuffixUnnested(j: nat)
    requires j < |RULES| && j != 1
    ensures !EndsWith(RULES[j].suffix, ".tar.gz")
  {
  }

  lemma TgzSuffixUnnested(j: nat)
    requires j < |RULES| && j != 2
    ensures !EndsWith(RULES[j].suffix, ".tgz")
  {
  }

  lemma TarBz2SuffixUnnested(j: nat)
    requires j < |RULES| && j != 3
    ensures !EndsWith(RULES[j].suffix, ".tar.bz2")
  {
  }

  lemma Tbz2SuffixUnnested(j: nat)
    requires j < |RULES| && j != 4
    ensures !EndsWith(RULES[j].suffix, ".tbz2")
  {
  }

  lemma TarSuffixUnnested(j: nat)
    requires j < |RULES| && j != 5
    ensures !EndsWith(RULES[j].suffix, ".tar")
  {
  }

  lemma SevenZipSuffixUnnested(j: nat)
    requires j < |RULES| && j != 6
    ensures !EndsWith(RULES[j].suffix, ".7z")
  {
  }

  /** No recognised suffix ends another one; in particular there is no bare `.gz` or `.bz2` among them. */
  lemma SuffixesUnnested(i: nat, j: nat)
    requires i < |RULES| && j < |RULES| && i != j
    ensures !EndsWith(RULES[j].suffix, RULES[i].suffix)
  {
    if i == 0 {
      ZipSuffixUnnested(j);
    } else if i == 1 {
      TarGzSuffixUnnested(j);
    } else if i == 2 {
      TgzSuffixUnnested(j);
    } else if i == 3 {
      TarBz2SuffixUnnested(j);
    } else if i == 4 {
      Tbz2SuffixUnnested(j);
    } else if i == 5 {
      TarSuffixUnnested(j);
    } else {
      SevenZipSuffixUnnested(j);
    }
  }

  /** At most one recognised suffix matches any string, so at most one branch of the chain can apply. */
  lemma {:induction false} MatchIsUnique(s: string, i: nat, j: nat)
    requires i < |RULES| && j < |RULES|
    ensures EndsWith(s, RULES[i].suffix) && EndsWith(s, RULES[j].suffix) ==> i == j
  {
    if i != j {
      SuffixesUnnested(i, j);
      SuffixesUnnested(j, i);
      if |RULES[i].suffix| <= |RULES[j].suffix| {
        SuffixesNest(s, RULES[i].suffix, RULES[j].suffix);
      } else {
        SuffixesNest(s, RULES[j].suffix, RULES[i].suffix);
      }
    }
  }

  /** A string that ends in a recognised suffix is dispatched to exactly that suffix's handler. */
  lemma {:induction false} DispatchBySuffix(urlLower: string, i: nat)
    requires i < |RULES| && EndsWith(urlLower, RULES[i].suffix)
    ensures Dispatch(urlLower) == Some(RULES[i].format)
  {
    forall j: nat | j < |RULES|
      ensures EndsWith(urlLower, RULES[j].suffix) ==> j == i
    {
      MatchIsUnique(urlLower, i, j);
    }
    assert EndsWith(urlLower, ".zip") ==> i == 0 by { assert RULES[0].suffix == ".zip"; }
    assert EndsWith(urlLower, ".tar.gz") ==> i == 1 by { assert RULES[1].suffix == ".tar.gz"; }
    assert EndsWith(urlLower, ".tgz") ==> i == 2 by { assert RULES[2].suffix == ".tgz"; }
    assert EndsWith(urlLower, ".tar.bz2") ==> i == 3 by { assert RULES[3].suffix == ".tar.bz2"; }
    assert EndsWith(urlLower, ".tbz2") ==> i == 4 by { assert RULES[4].suffix == ".tbz2"; }
    assert EndsWith(urlLower, ".tar") ==> i == 5 by { assert RULES[5].suffix == ".tar"; }
  }

  /** A string that ends in no recognised suffix is not dispatched, and one that does is. */
  lemma DispatchRejects(urlLower: string)
    ensures Dispatch(urlLower).None? <==> !AnyMatch(RULES, urlLower)
  {
    if AnyMatch(RULES, urlLower) {
      var r :| r in RULES && EndsWith(urlLower, r.suffix);
      var i :| 0 <= i < |RULES| && RULES[i] == r;
      DispatchBySuffix(urlLower, i);
    }
  }

  /** The dispatch table, suffix by suffix, on an already lower-cased string. */
  lemma DispatchTable(urlLower: string)
    ensures EndsWith(urlLower, ".zip") ==> Dispatch(urlLower) == Some(Zip)
    ensures EndsWith(urlLower, ".tar.gz") ==> Dispatch(urlLower) == Some(Tar(Gzip))
    ensures EndsWith(urlLower, ".tgz") ==> Dispatch(urlLower) == Some(Tar(Gzip))
    ensures EndsWith(urlLower, ".tar.bz2") ==> Dispatch(urlLower) == Some(Tar(Bzip2))
    ensures EndsWith(urlLower, ".tbz2") ==> Dispatch(urlLower) == Some(Tar(Bzip2))
    ensures EndsWith(urlLower, ".tar") ==> Dispatch(urlLower) == Some(Tar(AutoDetect))
    ensures EndsWith(urlLower, ".7z") ==> Dispatch(urlLower) == Some(SevenZip)
  {
    if EndsWith(urlLower, ".zip") { DispatchBySuffix(urlLower, 0); }
    if EndsWith(urlLower, ".tar.gz") { DispatchBySuffix(urlLower, 1); }
    if EndsWith(urlLower, ".tgz") { DispatchBySuffix(urlLower, 2); }
    if EndsWith(urlLower, ".tar.bz2") { DispatchBySuffix(urlLower, 3); }
    if EndsWith(urlLower, ".tbz2") { DispatchBySuffix(urlLower, 4); }
    if EndsWith(urlLower, ".tar") { DispatchBySuffix(urlLower, 5); }
    if EndsWith(urlLower, ".7z") { DispatchBySuffix(urlLower, 6); }
  }

  /** The dispatch table of `extract_archive`, stated on the URL as given; `.tar.gz` never falls through to plain `.tar`. */
  lemma ResolveTable(fileUrl: string)
    ensures EndsWith(Lower(fileUrl), ".zip") ==> Resolve(fileUrl) == Ok(Zip)
    ensures EndsWith(Lower(fileUrl), ".tar.gz") ==> Resolve(fileUrl) == Ok(Tar(Gzip))
    ensures EndsWith(Lower(fileUrl), ".tgz") ==> Resolve(fileUrl) == Ok(Tar(Gzip))
    ensures EndsWith(Lower(fileUrl), ".tar.bz2") ==> Resolve(fileUrl) == Ok(Tar(Bzip2))
    ensures EndsWith(Lower(fileUrl), ".tbz2") ==> Resolve(fileUrl) == Ok(Tar(Bzip2))
    ensures EndsWith(Lower(fileUrl), ".tar") ==> Resolve(fileUrl) == Ok(Tar(AutoDetect))
    ensures EndsWith(Lower(fileUrl), ".7z") ==> Resolve(fileUrl) == Ok(SevenZip)
  {
    DispatchTable(Lower(fileUrl));
  }

  /** The tar compression the chain picks follows the suffix, in both directions. */
  lemma DispatchTarCompression(urlLower: string)
    requires Dispatch(urlLower).Some? && Dispatch(urlLower).value.Tar?
    ensures Dispatch(urlLower).value.compression == Gzip <==> EndsWith(urlLower, ".tar.gz") || EndsWith(urlLower, ".tgz")
    ensures Dispatch(urlLower).value.compression == Bzip2 <==> EndsWith(urlLower, ".tar.bz2") || EndsWith(urlLower, ".tbz2")
    ensures Dispatch(urlLower).value.compression == AutoDetect <==> EndsWith(urlLower, ".tar")
  {
    DispatchTable(urlLower);
  }

  /** The `tarfile.open` mode follows the compression suffix, in both directions. */
  lemma TarOpenMode(fileUrl: string)
    requires Resolve(fileUrl).Ok? && Resolve(fileUrl).value.Tar?
    ensures var mode := Resolve(fileUrl).value.compression.Mode();
            var urlLower := Lower(fileUrl);
            (mode == "r:gz" <==> EndsWith(urlLower, ".tar.gz") || EndsWith(urlLower, ".tgz")) &&
            (mode == "r:bz2" <==> EndsWith(urlLower, ".tar.bz2") || EndsWith(urlLower, ".tbz2")) &&
            (mode == "r" <==> EndsWith(urlLower, ".tar"))
  {
    DispatchTarCompression(Lower(fileUrl));
    assert Gzip.Mode() != Bzip2.Mode() && Gzip.Mode() != AutoDetect.Mode() && Bzip2.Mode() != AutoDetect.Mode() by {
      assert |AutoDetect.Mode()| == 1 && |Gzip.Mode()| == 4 && |Bzip2.Mode()| == 5;
    }
  }

  /**
   * No default is guessed: resolution fails exactly when no recognised suffix
   * ends the lower-cased URL, and the error carries the URL as given.
   */
  lemma ResolveRejects(fileUrl: string)
    ensures Resolve(fileUrl).Err? <==> !AnyMatch(RULES, Lower(fileUrl))
    ensures Resolve(fileUrl).Err? ==> Resolve(fileUrl) == Err(UnsupportedFormat(fileUrl))
  {
    DispatchRejects(Lower(fileUrl));
  }

  /** Only the lower-cased URL is tested, so any ASCII case variant selects the same handler. */
  lemma ResolveIgnoresCase(u: string, v: string)
    requires CaseVariants(u, v)
    ensures Resolve(u).Ok? <==> Resolve(v).Ok?
    ensures Resolve(u).Ok? ==> Resolve(u) == Resolve(v)
  {
    CaseVariantsLowerAlike(u, v);
  }

  /** A first-match chain returns the handler every matching rule agrees on, or nothing when none matches. */
  lemma {:induction false} FirstMatchAgreed(rules: seq<Rule>, s: string, f: Format)
    requires forall r :: r in rules && EndsWith(s, r.suffix) ==> r.format == f
    ensures FirstMatch(rules, s) == if AnyMatch(rules, s) then Some(f) else None
  {
    if rules != [] && !EndsWith(s, rules[0].suffix) {
      FirstMatchAgreed(rules[1..], s, f);
      assert AnyMatch(rules, s) ==> AnyMatch(rules[1..], s) by {
        if AnyMatch(rules, s) {
          var r :| r in rules && EndsWith(s, r.suffix);
          assert r != rules[0];
          assert r in rules[1..];
        }
      }
      assert AnyMatch(rules[1..], s) ==> AnyMatch(rules, s) by {
        if AnyMatch(rules[1..], s) {
          var r :| r in rules[1..] && EndsWith(s, r.suffix);
          assert r in rules;
        }
      }
    } else if rules != [] {
      assert rules[0] in rules;
    }
  }

  /** A rule that matches is the only matching rule of the table. */
  lemma {:induction false} OnlyMatchingRule(s: string, i: nat)
    requires i < |RULES| && EndsWith(s, RULES[i].suffix)
    ensures forall r :: r in RULES && EndsWith(s, r.suffix) ==> r == RULES[i]
  {
    forall r | r in RULES && EndsWith(s, r.suffix)
      ensures r == RULES[i]
    {
      var j :| 0 <= j < |RULES| && RULES[j] == r;
      MatchIsUnique(s, i, j);
    }
  }

  /** When rule `i` matches, the chain and the first-match chain both pick that rule's handler. */
  lemma {:induction false} FirstMatchAt(urlLower: string, i: nat)
    requires i < |RULES| && EndsWith(urlLower, RULES[i].suffix)
    ensures FirstMatch(RULES, urlLower) == Some(RULES[i].format)
  {
    OnlyMatchingRule(urlLower, i);
    assert RULES[i] in RULES;
    FirstMatchAgreed(RULES, urlLower, RULES[i].format);
  }

  /** The chain as written is the first-match chain over `RULES`. */
  lemma {:induction false} DispatchIsFirstMatch(urlLower: string)
    ensures Dispatch(urlLower) == FirstMatch(RULES, urlLower)
  {
    DispatchRejects(urlLower);
    if AnyMatch(RULES, urlLower) {
      var r0 :| r0 in RULES && EndsWith(urlLower, r0.suffix);
      var i :| 0 <= i < |RULES| && RULES[i] == r0;
      DispatchBySuffix(urlLower, i);
      FirstMatchAt(urlLower, i);
    } else {
      FirstMatchAgreed(RULES, urlLower, Zip);
    }
  }

  /** Because at most one rule matches, a first-match chain over any arrangement of the rules agrees with `RULES`. */
  lemma {:induction false} ReorderedFirstMatch(rules: seq<Rule>, s: string)
    requires forall r :: r in rules <==> r in RULES
    ensures FirstMatch(rules, s) == FirstMatch(RULES, s)
  {
    if AnyMatch(RULES, s) {
      var r0 :| r0 in RULES && EndsWith(s, r0.suffix);
      var i :| 0 <= i < |RULES| && RULES[i] == r0;
      OnlyMatchingRule(s, i);
      assert r0 in rules;
      FirstMatchAgreed(rules, s, r0.format);
      FirstMatchAgreed(RULES, s, r0.format);
    } else {
      assert !AnyMatch(rules, s);
      FirstMatchAgreed(rules, s, Zip);
      FirstMatchAgreed(RULES, s, Zip);
    }
  }

  /**
   * Because the suffix groups are exclusive, the order of the tests does not
   * matter: a chain over any arrangement of the same rules dispatches every
   * string as the source's chain does.
   */
  lemma {:induction false} ReorderedChainAgrees(rules: seq<Rule>, urlLower: string)
    requires forall r :: r in rules <==> r in RULES
    ensures FirstMatch(rules, urlLower) == Dispatch(urlLower)
  {
    ReorderedFirstMatch(rules, urlLower);
    DispatchIsFirstMatch(urlLower);
  }

  /** A query string after the suffix defeats the dispatch, since the whole URL is tested. */
  lemma QueryStringRejected()
    ensures Resolve("a.zip?x=1") == Err(UnsupportedFormat("a.zip?x=1"))
  {
    assert Lower("a.zip?x=1")[8] == '1';
  }

  /** Upper-case suffixes are recognised. */
  lemma UpperCaseRecognised()
    ensures Resolve("X.TAR.GZ") == Ok(Tar(Gzip))
  {
    assert Lower("X.TAR.GZ")[1..] == ".tar.gz";
    DispatchBySuffix(Lower("X.TAR.GZ"), 1);
  }

  /** There is no rule for a bare `.gz`: gzip is recognised only under a TAR layer. */
  lemma BareGzipRejected()
    ensures Resolve("a.gz") == Err(UnsupportedFormat("a.gz"))
  {
    assert Lower("a.gz") == "a.gz";
  }

  /** There is no rule for a bare `.bz2`: bzip2 is recognised only under a TAR layer. */
  lemma BareBzip2Rejected()
    ensures Resolve("a.bz2") == Err(UnsupportedFormat("a.bz2"))
  {
    assert Lower("a.bz2") == "a.bz2";
  }

  /** Formats outside the five handlers, such as RAR, are rejected. */
  lemma RarRejected()
    ensures Resolve("a.rar") == Err(UnsupportedFormat("a.rar"))
  {
    assert Lower("a.rar") == "a.rar";
  }
}
