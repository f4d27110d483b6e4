/**
  `resolveAnswersPath`: choose where the answers store lives. The candidates
  are, in this order, the caller's `answersPath`, the `ANSWERS_PATH`
  environment variable and (unless `useDefaultPath` is exactly `false`) the
  default file under the module's `data` directory; falsy candidates are
  dropped. The first candidate whose directory passes the writability probe
  wins; when none does, a fixed file under the system temporary directory is
  used.
*/
module PathResolver {
  import opened JsValues

  /** The `options` argument; `None` stands for a property left `undefined`. */
  datatype PathOptions = PathOptions(answersPath: Option<string>, useDefaultPath: Option<Json>)

  /** What the resolver takes from its surroundings. */
  datatype Host = Host(
    envAnswersPath: Option<string>, // process.env.ANSWERS_PATH
    defaultPath: string,            // <module directory>/data/answers.json
    fallback: string,               // <os.tmpdir()>/qanda-answers.json
    dirname: string -> string,      // path.dirname
    writable: string -> bool)       // ensureWritableDirectory, as an oracle

  /** The probe accepts the directory of `candidate`. */
  predicate Usable(host: Host, candidate: string)
  {
    host.writable(host.dirname(candidate))
  }

  /** `options.useDefaultPath !== false`, negated. */
  predicate DefaultSuppressed(options: PathOptions)
  {
    options.useDefaultPath == Some(JBool(false))
  }

  /** A single candidate after `filter(Boolean)`: kept when it is a non-empty string. */
  function Kept(candidate: Option<string>): seq<string>
  {
    if candidate.Some? && candidate.value != "" then [candidate.value] else []
  }

  /** `candidates.filter(Boolean)` over strings and `undefined`. */
  function Present(candidates: seq<Option<string>>): (kept: seq<string>)
    ensures forall s :: s in kept <==> s != "" && Some(s) in candidates
    ensures |kept| <= |candidates|
  {
    if candidates == [] then []
    else Kept(candidates[0]) + Present(candidates[1..])
  }

  /** The candidate list the resolver builds before filtering. */
  function CandidateList(options: PathOptions, host: Host): (candidates: seq<Option<string>>)
    ensures |candidates| == if DefaultSuppressed(options) then 2 else 3
    ensures candidates[0] == options.answersPath && candidates[1] == host.envAnswersPath
    ensures !DefaultSuppressed(options) ==> candidates[2] == Some(host.defaultPath)
  {
    [options.answersPath, host.envAnswersPath]
      + (if DefaultSuppressed(options) then [] else [Some(host.defaultPath)])
  }

  /** The candidates the resolver probes, in order. */
  function Candidates(options: PathOptions, host: Host): seq<string>
  {
    Present(CandidateList(options, host))
  }

  /** The first usable candidate, else the fallback. */
  function FirstUsable(candidates: seq<string>, host: Host): (p: string)
    ensures || (p == host.fallback && forall c :: c in candidates ==> !Usable(host, c))
            || (exists i :: 0 <= i < |candidates| && p == candidates[i] && Usable(host, p)
                  && forall j :: 0 <= j < i ==> !Usable(host, candidates[j]))
  {
    if candidates == [] then host.fallback
    else if Usable(host, candidates[0]) then candidates[0]
    else
      var p := FirstUsable(candidates[1..], host);
      assert forall c :: c in candidates ==> c == candidates[0] || c in candidates[1..];
      p
  }

  /** `resolveAnswersPath(options)`: builds the candidate list with a
      conditional push, filters it and probes the survivors in order. */
  method ResolveAnswersPath(options: PathOptions, host: Host) returns (p: string)
    ensures p == FirstUsable(Candidates(options, host), host)
  {
    var candidatePaths := [options.answersPath, host.envAnswersPath];
    if options.useDefaultPath != Some(JBool(false)) {
      candidatePaths := candidatePaths + [Some(host.defaultPath)];
    }
    assert candidatePaths == CandidateList(options, host);
    var filtered := Present(candidatePaths);
    for i := 0 to |filtered|
      invariant FirstUsable(filtered[i..], host) == FirstUsable(filtered, host)
    {
      FirstUsableFrom(filtered, i, host);
      if Usable(host, filtered[i]) {
        return filtered[i];
      }
    }
    p := host.fallback;
  }

  /** One step of the probing loop. */
  lemma FirstUsableFrom(candidates: seq<string>, i: nat, host: Host)
    requires i < |candidates|
    ensures FirstUsable(candidates[i..], host)
         == if Usable(host, candidates[i]) then candidates[i] else FirstUsable(candidates[i + 1..], host)
  {
    assert candidates[i..][1..] == candidates[i + 1..];
  }

  lemma {:induction false} PresentAppend(xs: seq<Option<string>>, ys: seq<Option<string>>)
    ensures Present(xs + ys) == Present(xs) + Present(ys)
  {
    if xs == [] {
      assert xs + ys == ys;
    } else {
      assert (xs + ys)[1..] == xs[1..] + ys;
      PresentAppend(xs[1..], ys);
    }
  }

  /** Candidate order: the explicit path, then the environment's, then the
      default, each only when truthy; the default is left out only when
      `useDefaultPath` is exactly `false`. */
  lemma CandidateOrder(options: PathOptions, host: Host)
    ensures Candidates(options, host)
         == Kept(options.answersPath) + Kept(host.envAnswersPath)
            + (if DefaultSuppressed(options) then [] else Kept(Some(host.defaultPath)))
  {
    var tail := if DefaultSuppressed(options) then [] else [Some(host.defaultPath)];
    assert CandidateList(options, host) == [options.answersPath] + ([host.envAnswersPath] + tail);
    PresentAppend([options.answersPath], [host.envAnswersPath] + tail);
    PresentAppend([host.envAnswersPath], tail);
    assert Present([options.answersPath]) == Kept(options.answersPath) + Present([]);
    assert Present([host.envAnswersPath]) == Kept(host.envAnswersPath) + Present([]);
    if !DefaultSuppressed(options) {
      assert Present(tail) == Kept(Some(host.defaultPath)) + Present([]);
    }
  }

  /** The resolved path is the fallback or one of the truthy candidates, and
      never the empty string unless the fallback is. */
  lemma ResolvedIsCandidateOrFallback(options: PathOptions, host: Host)
    ensures var p := FirstUsable(Candidates(options, host), host);
      || p == host.fallback
      || (p != "" && (|| Some(p) == options.answersPath
                      || Some(p) == host.envAnswersPath
                      || (p == host.defaultPath && !DefaultSuppressed(options))))
  {
    var cs := Candidates(options, host);
    var p := FirstUsable(cs, host);
    if p != host.fallback {
      assert p in cs;
      assert Some(p) in CandidateList(options, host);
    }
  }

  /** The default file is among the candidates (probed in order, after the
      explicit and environment paths) exactly when `useDefaultPath` is
      anything but `false`, or when it is also one of those two paths (the
      default path being non-empty). */
  lemma DefaultIsCandidateUnlessFalse(options: PathOptions, host: Host)
    requires host.defaultPath != ""
    ensures host.defaultPath in Candidates(options, host) <==>
      (|| !DefaultSuppressed(options)
       || Some(host.defaultPath) == options.answersPath
       || Some(host.defaultPath) == host.envAnswersPath)
  {
    if !DefaultSuppressed(options) {
      assert Some(host.defaultPath) in CandidateList(options, host);
    }
  }
}
