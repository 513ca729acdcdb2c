/** Classifying image pull failures: the reason words, the message tests and the registry of an image. */
module PullReasons {
  import opened Letters

  // ---------- Strings ----------

  function LowerChar(c: char): char
  {
    if 'A' <= c <= 'Z' then c + ('a' - 'A') else c
  }

  function ToLower(s: string): string
  {
    seq(|s|, i requires 0 <= i < |s| => LowerChar(s[i]))
  }

  /** Every letter becomes its small one, and nothing else changes. */
  lemma LowerCased(s: string, i: nat, k: nat)
    requires i < |s| && k < 26
    ensures |ToLower(s)| == |s| && |UPPER| == |LOWER| == 26
    ensures s[i] == UPPER[k] ==> ToLower(s)[i] == LOWER[k]
    ensures s[i] !in UPPER ==> ToLower(s)[i] == s[i]
  {
    LetterAt(k);
    UpperIff(s[i]);
  }

  predicate Contains(s: string, part: string)
  {
    exists i | 0 <= i <= |s| - |part| :: s[i..][..|part|] == part
  }

  lemma ContainsIff(s: string, part: string)
    ensures Contains(s, part) <==> exists before, after :: s == before + part + after
  {
    if i :| 0 <= i <= |s| - |part| && s[i..][..|part|] == part {
      assert s == s[..i] + part + s[i..][|part|..];
    }
    if before, after :| s == before + part + after {
      assert s[|before|..][..|part|] == part;
    }
  }

  // ---------- Reasons ----------

  datatype Reason =
    | ImageNotFound
    | ProxyError
    | Unauthorized
    | TLSHandshake
    | IOTimeout
    | ConnectionRefused
    | NetworkError
    | BackOff
    | Unknown
    | Other(text: string)

  /** The regular expressions, as tests of a lower-case message. */
  datatype Patterns = Patterns(
    imageNotFound: string -> bool,
    proxyError: string -> bool,
    unauthorized: string -> bool,
    tls: string -> bool,
    ioTimeout: string -> bool,
    connectionRefused: string -> bool,
    networkError: string -> bool)

  /** The first pattern that matches decides. */
  function ClassifyMessage(p: Patterns, message: string): Reason
  {
    if p.imageNotFound(message) then ImageNotFound
    else if p.proxyError(message) then ProxyError
    else if p.unauthorized(message) then Unauthorized
    else if p.tls(message) then TLSHandshake
    else if p.ioTimeout(message) then IOTimeout
    else if p.connectionRefused(message) then ConnectionRefused
    else if p.networkError(message) then NetworkError
    else if "back-off pulling image" <= message then BackOff
    else Unknown
  }

  /** Any reason but the two that name a failed pull stands for itself. */
  function Classify(p: Patterns, reason: string, message: string): Reason
  {
    if ToLower(reason) in {"errimagepull", "imagepullbackoff"} then ClassifyMessage(p, ToLower(message))
    else Other(ToLower(reason))
  }

  predicate IsSpecific(r: Reason)
  {
    r != BackOff && r != Unknown
  }

  predicate IsImagePullFailure(reason: string)
  {
    reason in {"ErrImagePull", "ImagePullBackOff", "Cancelled", "RegistryUnavailable",
               "InvalidImageName", "ImageInspectError", "ErrImageNeverPull"}
  }

  predicate IsBackOffPullingImage(reason: string, message: string)
  {
    ToLower(reason) == "imagepullbackoff" || Contains(ToLower(message), "back-off pulling image")
  }

  /** The tests in the order in which they are tried, each with the reason it stands for. */
  function Tests(p: Patterns): seq<(string -> bool, Reason)>
  {
    [(p.imageNotFound, ImageNotFound), (p.proxyError, ProxyError), (p.unauthorized, Unauthorized),
     (p.tls, TLSHandshake), (p.ioTimeout, IOTimeout), (p.connectionRefused, ConnectionRefused),
     (p.networkError, NetworkError), (message => "back-off pulling image" <= message, BackOff)]
  }

  /** The first test that a message passes says the reason; if it passes none the reason is unknown. */
  lemma FirstTestDecides(p: Patterns, message: string, i: nat)
    requires i <= |Tests(p)| && forall j | 0 <= j < i :: !Tests(p)[j].0(message)
    requires i < |Tests(p)| ==> Tests(p)[i].0(message)
    ensures ClassifyMessage(p, message) == if i < |Tests(p)| then Tests(p)[i].1 else Unknown
  {
    var tests := Tests(p);
    assert tests[0].0 == p.imageNotFound && tests[1].0 == p.proxyError && tests[2].0 == p.unauthorized;
    assert tests[3].0 == p.tls && tests[4].0 == p.ioTimeout && tests[5].0 == p.connectionRefused;
    assert tests[6].0 == p.networkError && tests[7].0(message) == ("back-off pulling image" <= message);
  }

  /** The same word up to the case of its letters. */
  predicate SameWord(a: string, b: string)
  {
    |a| == |b| && forall i | 0 <= i < |a| :: LowerChar(a[i]) == LowerChar(b[i])
  }

  lemma SameWordLower(a: string, b: string)
    ensures SameWord(a, b) <==> ToLower(a) == ToLower(b)
  {
    if ToLower(a) == ToLower(b) {
      forall i | 0 <= i < |a|
        ensures LowerChar(a[i]) == LowerChar(b[i])
      {
        assert ToLower(a)[i] == ToLower(b)[i];
      }
    }
  }

  /** Only the two words for a failed pull, in any case, leave the reason to the message; any other stands for itself. */
  lemma WordsClassified(p: Patterns, reason: string, message: string)
    ensures Classify(p, reason, message)
         == if SameWord(reason, "ErrImagePull") || SameWord(reason, "ImagePullBackOff") then
              ClassifyMessage(p, ToLower(message))
            else Other(ToLower(reason))
  {
    SameWordLower(reason, "ErrImagePull");
    SameWordLower(reason, "ImagePullBackOff");
    LowerError();
    LowerBackOff();
  }

  lemma LowerError()
    ensures ToLower("ErrImagePull") == "errimagepull"
  {
  }

  lemma LowerBackOff()
    ensures ToLower("ImagePullBackOff") == "imagepullbackoff"
  {
  }

  // ---------- Images ----------

  function BeforeSlash(image: string): string
  {
    if image == "" || image[0] == '/' then "" else [image[0]] + BeforeSlash(image[1..])
  }

  function ParseRegistry(image: string): string
  {
    if image == "" then "unknown"
    else if '/' in image && '.' in BeforeSlash(image) then BeforeSlash(image)
    else "docker.io"
  }

  predicate IsPublicRegistry(image: string)
  {
    || '/' !in image
    || "docker.io/" <= image
    || "gcr.io/" <= image
    || "ghcr.io/" <= image
    || "k8s.gcr.io/" <= image
    || "quay.io/" <= image
    || "registry.k8s.io/" <= image
    || ("registry." <= image && Contains(image, ".aliyuncs.com/"))
    || ("hub." <= image && Contains(image, ".sealos.run/"))
    || "sealos.hub" <= image
    || Contains(image, ".cr.aliyuncs.com/")
  }

  /** The registry of an image is what stands before its first slash, if that has a dot in it, and else the default one. */
  lemma RegistryBeforeSlash(host: string, rest: string)
    requires '/' !in host
    ensures ParseRegistry(host + "/" + rest) == if '.' in host then host else "docker.io"
    ensures ParseRegistry(host) == if host == "" then "unknown" else "docker.io"
  {
    BeforeFirstSlash(host, rest);
  }

  lemma {:induction false} BeforeFirstSlash(host: string, rest: string)
    requires '/' !in host
    ensures BeforeSlash(host + "/" + rest) == host && '/' in host + "/" + rest
  {
    var image := host + "/" + rest;
    assert image[|host|] == '/';
    if host != "" {
      BeforeFirstSlash(host[1..], rest);
      assert image[1..] == host[1..] + "/" + rest && image[0] == host[0];
    }
  }

  /** What a public registry is called: an image without a slash is on one, and else its host tells, or its path. */
  lemma PublicHosts(host: string, rest: string)
    requires '/' !in host
    ensures IsPublicRegistry(host)
    ensures var image := host + "/" + rest;
            IsPublicRegistry(image) <==>
              || host in ["docker.io", "gcr.io", "ghcr.io", "k8s.gcr.io", "quay.io", "registry.k8s.io"]
              || "sealos.hub" <= host
              || ("registry." <= host && Contains(image, ".aliyuncs.com/"))
              || ("hub." <= host && Contains(image, ".sealos.run/"))
              || Contains(image, ".cr.aliyuncs.com/")
  {
    HostAmong(host, rest);
    HostBegins(host, rest, "sealos.hub");
    HostBegins(host, rest, "registry.");
    HostBegins(host, rest, "hub.");
    assert (host + "/" + rest)[|host|] == '/';
  }

  lemma HostAmong(host: string, rest: string)
    requires '/' !in host
    ensures var image := host + "/" + rest;
            host in ["docker.io", "gcr.io", "ghcr.io", "k8s.gcr.io", "quay.io", "registry.k8s.io"] <==>
              || "docker.io/" <= image || "gcr.io/" <= image || "ghcr.io/" <= image
              || "k8s.gcr.io/" <= image || "quay.io/" <= image || "registry.k8s.io/" <= image
  {
    HostIs(host, rest, "docker.io");
    HostIs(host, rest, "gcr.io");
    HostIs(host, rest, "ghcr.io");
    HostIs(host, rest, "k8s.gcr.io");
    HostIs(host, rest, "quay.io");
    HostIs(host, rest, "registry.k8s.io");
  }

  lemma HostIs(host: string, rest: string, name: string)
    requires '/' !in host && '/' !in name
    ensures name + "/" <= host + "/" + rest <==> host == name
  {
    var image := host + "/" + rest;
    assert image[|host|] == '/' && image[..|host|] == host;
    if name + "/" <= image {
      assert (name + "/")[|name|] == '/' && image[..|name|] == name;
    }
  }

  lemma HostBegins(host: string, rest: string, start: string)
    requires '/' !in host && '/' !in start
    ensures start <= host + "/" + rest <==> start <= host
  {
    var image := host + "/" + rest;
    assert image[|host|] == '/' && image[..|host|] == host;
    if start <= image {
      assert |start| <= |host| ==> host[..|start|] == image[..|start|];
    }
  }

  // ---------- Backoff ----------

  /** What is stored for a failure, given what was stored before: backoff does not hide a specific reason. */
  function Stored(previous: Reason, classified: Reason): Reason
  {
    if classified == BackOff && IsSpecific(previous) then previous else classified
  }

  /** What is stored after an unbroken run of failures, none being stored before. */
  function StoredAfter(classified: seq<Reason>): Reason
    requires classified != []
  {
    var n := |classified| - 1;
    if n == 0 then classified[0] else Stored(StoredAfter(classified[..n]), classified[n])
  }

  /** The last reason that is not backoff, if there is one. */
  predicate LastOther(classified: seq<Reason>, j: nat)
  {
    j < |classified| && classified[j] != BackOff && forall i | j < i < |classified| :: classified[i] == BackOff
  }

  /**
    The last reason that is not backoff is kept if it is specific; an unknown one gives way to a later
    backoff; and without any it is backoff.
   */
  lemma {:induction false} StoredIsLastOther(classified: seq<Reason>, j: nat)
    requires LastOther(classified, j)
    ensures StoredAfter(classified)
         == if classified[j] != Unknown || j == |classified| - 1 then classified[j] else BackOff
    decreases |classified|
  {
    var n := |classified| - 1;
    if j < n {
      StoredIsLastOther(classified[..n], j);
    }
  }

  lemma {:induction false} AllBackOff(classified: seq<Reason>)
    requires classified != [] && forall i | 0 <= i < |classified| :: classified[i] == BackOff
    ensures StoredAfter(classified) == BackOff
  {
    var n := |classified| - 1;
    if n > 0 {
      AllBackOff(classified[..n]);
    }
  }

  lemma {:induction false} LastOtherOrNone(classified: seq<Reason>)
    ensures (exists j: nat :: LastOther(classified, j)) || forall i | 0 <= i < |classified| :: classified[i] == BackOff
  {
    if classified != [] {
      var n := |classified| - 1;
      LastOtherOrNone(classified[..n]);
      if classified[n] != BackOff {
        assert LastOther(classified, n);
      } else if j: nat :| LastOther(classified[..n], j) {
        assert LastOther(classified, j);
      } else {
        assert forall i | 0 <= i < n :: classified[..n][i] == BackOff;
      }
    }
  }

  /** Backoff is stored exactly when the last is backoff and nothing was specific since the last unknown. */
  lemma {:induction false} BackOffIff(classified: seq<Reason>)
    requires classified != []
    ensures StoredAfter(classified) == BackOff <==>
              && classified[|classified| - 1] == BackOff
              && forall j: nat | LastOther(classified, j) :: classified[j] == Unknown
  {
    LastOtherOrNone(classified);
    if j: nat :| LastOther(classified, j) {
      StoredIsLastOther(classified, j);
    } else {
      AllBackOff(classified);
    }
  }
}
