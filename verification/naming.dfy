/** Names of instances, images, jobs, cluster objects and URL paths (api/v1alpha1). */
module Naming {
  import opened Text

  datatype Option<+T> = None | Some(value: T)

  const NAME_KEEP := 45
  const INSTANCE_PREFIX := "pei-"
  const BUILD_PREFIX := "build-"
  const PROXY_SUFFIX := "-auth-proxy"

  /** The part of a PreviewEnvironment that never changes after creation. */
  datatype Spec = Spec(name: string, owner: string, organization: string, repository: string,
                       registry: string, registryRepository: string, hostname: string,
                       buildAllBranches: bool)

  /** The CRD makes `branch` mandatory, so only the pull request number is optional. */
  datatype GitSettings = GitSettings(branch: string, pullRequestNumber: Option<PrNumber>, commitHash: string) {
    function Identifier(): string {
      match pullRequestNumber
      case Some(n) => Itoa(n)
      case None => branch
    }
  }

  function FullName(owner: string, pe: string, org: string, repo: string, identifier: string): string {
    Normalise(INSTANCE_PREFIX + owner + "-" + pe + "-" + org + "-" + repo + "-" + identifier)
  }

  function Shorten(full: string): string {
    if |full| > NAME_KEEP then INSTANCE_PREFIX + full[|full| - NAME_KEEP..] else full
  }

  function InstanceName(owner: string, pe: string, org: string, repo: string, identifier: string): string {
    Shorten(FullName(owner, pe, org, repo, identifier))
  }

  function PullRequestName(spec: Spec, number: PrNumber): string {
    InstanceName(spec.owner, spec.name, spec.organization, spec.repository, "pr-" + Itoa(number))
  }

  function BranchName(spec: Spec, branch: string): string {
    InstanceName(spec.owner, spec.name, spec.organization, spec.repository, branch)
  }

  function ContainerName(spec: Spec, identifier: string, commitHash: string): string {
    spec.registry + "/" + spec.registryRepository + "/tmpenv:" + spec.owner + "-" + spec.organization + "-"
    + spec.repository + "-" + identifier + "-" + commitHash
  }

  function HttpPath(org: string, repo: string, identifier: string, commitHash: string): string {
    "/" + org + "/" + repo + "/" + identifier + "/" + commitHash
  }

  function ProxyName(name: string): string { name + PROXY_SUFFIX }

  function JobName(name: string): string { BUILD_PREFIX + name }

  /** What a reader of a name takes for its pull request number: the text after the last hyphen. */
  function NameSuffix(name: string): string { AfterLast(name, '-') }

  // ---------------------------------------------------------------- printing and parsing names

  lemma FullNameSplit(owner: string, pe: string, org: string, repo: string, number: PrNumber)
    returns (head: string)
    ensures FullName(owner, pe, org, repo, "pr-" + Itoa(number)) == head + "-" + Itoa(number)
    ensures |head| >= 10 && head[..4] == INSTANCE_PREFIX
  {
    var raw := INSTANCE_PREFIX + owner + "-" + pe + "-" + org + "-" + repo + "-pr";
    var digits := Itoa(number);
    assert INSTANCE_PREFIX + owner + "-" + pe + "-" + org + "-" + repo + "-" + ("pr-" + digits) == raw + "-" + digits;
    head := Normalise(raw);
    DigitsHaveNoHyphen(digits);
    NormaliseConcat(raw + "-", digits);
    NormaliseConcat(raw, "-");
    assert Normalise("-") == "-";
    assert raw[..4] == INSTANCE_PREFIX;
    assert head[..4] == INSTANCE_PREFIX;
  }

  /** The shape every pull request name has, cut or not: "pei-" ... "-" digits, at most 49 bytes. */
  lemma PullRequestNameShape(owner: string, pe: string, org: string, repo: string, number: PrNumber)
    returns (head: string)
    ensures InstanceName(owner, pe, org, repo, "pr-" + Itoa(number)) == head + "-" + Itoa(number)
    ensures |head| >= 4 && head[..4] == INSTANCE_PREFIX && |head + "-" + Itoa(number)| <= NAME_KEEP + 4
  {
    var full := FullName(owner, pe, org, repo, "pr-" + Itoa(number));
    var h := FullNameSplit(owner, pe, org, repo, number);
    PrNumberLength(number);
    if |full| > NAME_KEEP {
      var cut := |full| - NAME_KEEP;
      assert full[cut..] == h[cut..] + "-" + Itoa(number);
      head := INSTANCE_PREFIX + h[cut..];
      assert head + "-" + Itoa(number) == INSTANCE_PREFIX + full[cut..];
    } else {
      head := h;
    }
  }

  /** The pull request number that a name shows after its last hyphen. */
  function ShownNumber(name: string): Option<nat> {
    var digits := NameSuffix(name);
    if AllDigits(digits) then Some(Atoi(digits)) else None
  }

  /** The number survives printing and cutting: the digits after the last hyphen give it back. */
  lemma NumberRecovered(spec: Spec, number: PrNumber, name: string)
    requires name == PullRequestName(spec, number)
    ensures NameSuffix(name) == Itoa(number) && ShownNumber(name) == Some(number)
  {
    var head := PullRequestNameShape(spec.owner, spec.name, spec.organization, spec.repository, number);
    DigitsHaveNoHyphen(Itoa(number));
    AfterLastSplit(head, '-', Itoa(number));
    AtoiItoa(number);
  }

  /** Two instance names collide exactly when the full names are equal, or both were cut and agree
      on the 45 bytes that are kept; a cut name never meets an uncut one. */
  lemma NamesEqualIff(a: string, b: string)
    ensures Shorten(a) == Shorten(b) <==>
            (a == b || (|a| > NAME_KEEP && |b| > NAME_KEEP && a[|a| - NAME_KEEP..] == b[|b| - NAME_KEEP..]))
  {
    if |a| > NAME_KEEP && |b| > NAME_KEEP {
      assert Shorten(a)[4..] == a[|a| - NAME_KEEP..];
      assert Shorten(b)[4..] == b[|b| - NAME_KEEP..];
    }
  }

  // ---------------------------------------------------------------- what a name is made of

  predicate NoHyphen(s: string) { '-' !in s && '/' !in s }

  lemma NormaliseNoHyphen(s: string)
    requires NoHyphen(s)
    ensures '-' !in Normalise(s)
  {
  }

  lemma FullNameJoins(owner: string, pe: string, org: string, repo: string, identifier: string)
    ensures FullName(owner, pe, org, repo, identifier) ==
            "pei-" + (Normalise(owner) + ['-'] + (Normalise(pe) + ['-'] + (Normalise(org) + ['-'] + (Normalise(repo) + ['-'] + Normalise(identifier)))))
  {
    var raw := INSTANCE_PREFIX + owner + "-" + pe + "-" + org + "-" + repo + "-" + identifier;
    var tail4 := repo + ("-" + identifier);
    var tail3 := org + ("-" + tail4);
    var tail2 := pe + ("-" + tail3);
    assert raw == INSTANCE_PREFIX + (owner + ("-" + tail2));
    assert Normalise("-") == "-" && Normalise(INSTANCE_PREFIX) == INSTANCE_PREFIX;
    NormaliseConcat(INSTANCE_PREFIX, owner + ("-" + tail2));
    NormaliseConcat(owner, "-" + tail2);
    NormaliseConcat("-", tail2);
    NormaliseConcat(pe, "-" + tail3);
    NormaliseConcat("-", tail3);
    NormaliseConcat(org, "-" + tail4);
    NormaliseConcat("-", tail4);
    NormaliseConcat(repo, "-" + identifier);
    NormaliseConcat("-", identifier);
    hide Normalise;
    assert FullName(owner, pe, org, repo, identifier) ==
           INSTANCE_PREFIX + (Normalise(owner) + ("-" + (Normalise(pe) + ("-" + (Normalise(org) + ("-" + (Normalise(repo) + ("-" + Normalise(identifier)))))))));
    Regroup(Normalise(owner), Normalise(pe), Normalise(org), Normalise(repo), Normalise(identifier));
  }

  lemma Regroup(a: string, b: string, c: string, d: string, e: string)
    ensures "pei-" + (a + ("-" + (b + ("-" + (c + ("-" + (d + ("-" + e)))))))) ==
            "pei-" + (a + ['-'] + (b + ['-'] + (c + ['-'] + (d + ['-'] + e))))
  {
    assert d + ("-" + e) == d + ['-'] + e;
    assert c + ("-" + (d + ['-'] + e)) == c + ['-'] + (d + ['-'] + e);
    assert b + ("-" + (c + ['-'] + (d + ['-'] + e))) == b + ['-'] + (c + ['-'] + (d + ['-'] + e));
    assert a + ("-" + (b + ['-'] + (c + ['-'] + (d + ['-'] + e)))) == a + ['-'] + (b + ['-'] + (c + ['-'] + (d + ['-'] + e)));
  }

  lemma FiveParts(a: string, b: string, c: string, d: string, e: string)
    requires '-' !in a && '-' !in b && '-' !in c && '-' !in d
    ensures Parts("pei-" + (a + ['-'] + (b + ['-'] + (c + ['-'] + (d + ['-'] + e)))), '-', 5) == ["pei", a, b, c, d] + [e]
  {
    hide UpTo;
    var t3 := d + ['-'] + e;
    var t2 := c + ['-'] + t3;
    var t1 := b + ['-'] + t2;
    var t0 := a + ['-'] + t1;
    assert "pei-" + t0 == "pei" + ['-'] + t0;
    PartsSplit("pei", '-', t0, 5);
    PartsSplit(a, '-', t1, 4);
    PartsSplit(b, '-', t2, 3);
    PartsSplit(c, '-', t3, 2);
    PartsSplit(d, '-', e, 1);
  }

  /** A name that was not cut gives its parts back, in lower case: prefix, owner, environment, organization, repository
      and identifier, in this order. */
  lemma NamePartsReadBack(owner: string, pe: string, org: string, repo: string, identifier: string)
    requires NoHyphen(owner) && NoHyphen(pe) && NoHyphen(org) && NoHyphen(repo)
    requires |FullName(owner, pe, org, repo, identifier)| <= NAME_KEEP
    ensures Parts(InstanceName(owner, pe, org, repo, identifier), '-', 5) ==
            ["pei", Normalise(owner), Normalise(pe), Normalise(org), Normalise(repo), Normalise(identifier)]
    ensures Lowered(owner) && Lowered(pe) && Lowered(org) && Lowered(repo) && Lowered(identifier) ==>
              Parts(InstanceName(owner, pe, org, repo, identifier), '-', 5) == ["pei", owner, pe, org, repo, identifier]
  {
    FullNameJoins(owner, pe, org, repo, identifier);
    NormaliseNoHyphen(owner);
    NormaliseNoHyphen(pe);
    NormaliseNoHyphen(org);
    NormaliseNoHyphen(repo);
    FiveParts(Normalise(owner), Normalise(pe), Normalise(org), Normalise(repo), Normalise(identifier));
    NormaliseLowers(owner);
    NormaliseLowers(pe);
    NormaliseLowers(org);
    NormaliseLowers(repo);
    NormaliseLowers(identifier);
  }

  /** So do the names of pull requests and branches of an environment. */
  lemma SpecPartsReadBack(spec: Spec, number: PrNumber, branch: string)
    requires NoHyphen(spec.owner) && NoHyphen(spec.name) && NoHyphen(spec.organization) && NoHyphen(spec.repository)
    ensures |FullName(spec.owner, spec.name, spec.organization, spec.repository, "pr-" + Itoa(number))| <= NAME_KEEP ==>
              Parts(PullRequestName(spec, number), '-', 5) ==
              ["pei", Normalise(spec.owner), Normalise(spec.name), Normalise(spec.organization), Normalise(spec.repository),
               Normalise("pr-" + Itoa(number))]
    ensures |FullName(spec.owner, spec.name, spec.organization, spec.repository, branch)| <= NAME_KEEP ==>
              Parts(BranchName(spec, branch), '-', 5) ==
              ["pei", Normalise(spec.owner), Normalise(spec.name), Normalise(spec.organization), Normalise(spec.repository),
               Normalise(branch)]
  {
    hide Parts, Normalise, InstanceName;
    if |FullName(spec.owner, spec.name, spec.organization, spec.repository, "pr-" + Itoa(number))| <= NAME_KEEP {
      NamePartsReadBack(spec.owner, spec.name, spec.organization, spec.repository, "pr-" + Itoa(number));
    }
    if |FullName(spec.owner, spec.name, spec.organization, spec.repository, branch)| <= NAME_KEEP {
      NamePartsReadBack(spec.owner, spec.name, spec.organization, spec.repository, branch);
    }
  }

  /** No name that the operator gives has an upper-case letter or a slash in it. */
  lemma NamesAreLowered(owner: string, pe: string, org: string, repo: string, identifier: string)
    ensures var n := InstanceName(owner, pe, org, repo, identifier); Lowered(n) && Lowered(ProxyName(n)) && Lowered(JobName(n))
  {
    NormaliseLowers(INSTANCE_PREFIX + owner + "-" + pe + "-" + org + "-" + repo + "-" + identifier);
    hide Normalise;
  }

  predicate SameSpecUpToCase(a: Spec, b: Spec) {
    && SameUpToCase(a.owner, b.owner) && SameUpToCase(a.name, b.name)
    && SameUpToCase(a.organization, b.organization) && SameUpToCase(a.repository, b.repository)
  }

  lemma SameNormalised(s: string, t: string)
    requires SameUpToCase(s, t)
    ensures Normalise(s) == Normalise(t)
  {
    NormaliseEqualIff(s, t);
    hide Normalise;
  }

  /** Upper and lower case make no difference. */
  lemma CaseDoesNotMatter(a: Spec, b: Spec, number: PrNumber, x: string, y: string)
    requires SameSpecUpToCase(a, b) && SameUpToCase(x, y)
    ensures PullRequestName(a, number) == PullRequestName(b, number) && BranchName(a, x) == BranchName(b, y)
  {
    hide Normalise, SameUpToCase;
    SameNormalised(a.owner, b.owner);
    SameNormalised(a.name, b.name);
    SameNormalised(a.organization, b.organization);
    SameNormalised(a.repository, b.repository);
    SameNormalised(x, y);
    var id := "pr-" + Itoa(number);
    FullNameJoins(a.owner, a.name, a.organization, a.repository, id);
    FullNameJoins(b.owner, b.name, b.organization, b.repository, id);
    FullNameJoins(a.owner, a.name, a.organization, a.repository, x);
    FullNameJoins(b.owner, b.name, b.organization, b.repository, y);
  }

  // ---------------------------------------------------------------- names as DNS labels

  predicate IsLetter(c: char) { IsLower(c) || IsUpper(c) }

  /** What a label may be made of: Kubernetes takes no upper-case letters. */
  predicate IsLabelChar(c: char) { IsLower(c) || IsDigit(c) || c == '-' }

  /** A label of section 2.3.1 of RFC 1035, with the 63-octet limit of section 2.3.4, in lower case. */
  predicate IsLabel(s: string) {
    && 0 < |s| <= 63
    && IsLower(s[0])
    && (IsLower(s[|s| - 1]) || IsDigit(s[|s| - 1]))
    && AllLabelChars(s)
  }

  predicate AllLabelChars(s: string) { forall i | 0 <= i < |s| :: IsLabelChar(s[i]) }

  predicate Plain(s: string) { forall i | 0 <= i < |s| :: IsLetter(s[i]) || IsDigit(s[i]) || s[i] == '-' || s[i] == '/' }

  predicate PlainSpec(spec: Spec) {
    Plain(spec.owner) && Plain(spec.name) && Plain(spec.organization) && Plain(spec.repository)
  }

  /** Plain strings, and no others, normalise to what labels are made of. */
  lemma NormalisePlainIff(s: string)
    ensures AllLabelChars(Normalise(s)) <==> Plain(s)
  {
    forall i | 0 <= i < |s|
      ensures IsLabelChar(Normalise(s)[i]) <==> IsLetter(s[i]) || IsDigit(s[i]) || s[i] == '-' || s[i] == '/'
    {
    }
  }

  lemma LabelCharsJoin(a: string, b: string)
    ensures AllLabelChars(a + b) <==> AllLabelChars(a) && AllLabelChars(b)
  {
    if AllLabelChars(a + b) {
      forall i | 0 <= i < |a| ensures IsLabelChar(a[i]) { assert (a + b)[i] == a[i]; }
      forall i | 0 <= i < |b| ensures IsLabelChar(b[i]) { assert (a + b)[|a| + i] == b[i]; }
    }
  }

  lemma FullNamePlainIff(spec: Spec, number: PrNumber)
    ensures AllLabelChars(FullName(spec.owner, spec.name, spec.organization, spec.repository, "pr-" + Itoa(number))) <==> PlainSpec(spec)
  {
    var id := "pr-" + Itoa(number);
    FullNameJoins(spec.owner, spec.name, spec.organization, spec.repository, id);
    var a, b, c, d, e := Normalise(spec.owner), Normalise(spec.name), Normalise(spec.organization), Normalise(spec.repository), Normalise(id);
    NormalisePlainIff(spec.owner);
    NormalisePlainIff(spec.name);
    NormalisePlainIff(spec.organization);
    NormalisePlainIff(spec.repository);
    NormalisePlainIff(id);
    assert Plain(id) && AllLabelChars("pei-") && AllLabelChars(['-']);
    hide Normalise, Plain, AllLabelChars;
    LabelCharsJoin(d + ['-'], e);
    LabelCharsJoin(d, ['-']);
    LabelCharsJoin(c + ['-'], d + ['-'] + e);
    LabelCharsJoin(c, ['-']);
    LabelCharsJoin(b + ['-'], c + ['-'] + (d + ['-'] + e));
    LabelCharsJoin(b, ['-']);
    LabelCharsJoin(a + ['-'], b + ['-'] + (c + ['-'] + (d + ['-'] + e)));
    LabelCharsJoin(a, ['-']);
    LabelCharsJoin("pei-", a + ['-'] + (b + ['-'] + (c + ['-'] + (d + ['-'] + e))));
  }

  lemma CutKeepsLabelChars(full: string)
    requires AllLabelChars(full)
    ensures AllLabelChars(Shorten(full))
  {
    assert AllLabelChars(INSTANCE_PREFIX);
  }

  /** A pull request's name that was not cut is a label if and only if owner, environment, organization and repository
      are made of letters, digits, hyphens and slashes; cut or not, that is enough, and the proxy and the build job then
      have labels for names as well. */
  lemma PullRequestNamesAreLabels(spec: Spec, number: PrNumber, n: string)
    requires n == PullRequestName(spec, number)
    ensures |n| <= 49
    ensures PlainSpec(spec) ==> IsLabel(n) && IsLabel(ProxyName(n)) && IsLabel(JobName(n))
    ensures |FullName(spec.owner, spec.name, spec.organization, spec.repository, "pr-" + Itoa(number))| <= NAME_KEEP && IsLabel(n) ==>
              PlainSpec(spec)
  {
    FullNamePlainIff(spec, number);
    var head := PullRequestNameShape(spec.owner, spec.name, spec.organization, spec.repository, number);
    if PlainSpec(spec) {
      CutKeepsLabelChars(FullName(spec.owner, spec.name, spec.organization, spec.repository, "pr-" + Itoa(number)));
      assert n[0] == head[..4][0] == 'p';
      assert n[|n| - 1] == Itoa(number)[|Itoa(number)| - 1];
      assert AllLabelChars(PROXY_SUFFIX) && AllLabelChars(BUILD_PREFIX);
      LabelCharsJoin(n, PROXY_SUFFIX);
      LabelCharsJoin(BUILD_PREFIX, n);
    }
  }

  // ---------------------------------------------------------------- images

  /** What the name of an image shows: where it is stored, and last what it was built for and from which commit. */
  predicate ShowsBuild(image: string, spec: Spec, identifier: string, hash: string) {
    && spec.registry + "/" + spec.registryRepository + "/" <= image
    && EndsWith(image, "-" + identifier + "-" + hash)
    && ('-' !in hash ==> AfterLast(image, '-') == hash)
    && (TagReadable(spec, identifier, hash) ==>
         Parts(AfterLast(image, ':'), '-', 4) == [spec.owner, spec.organization, spec.repository, identifier, hash])
  }

  /** Nothing in the tag of an image that separates its parts. */
  predicate TagReadable(spec: Spec, identifier: string, hash: string) {
    && '-' !in spec.owner && '-' !in spec.organization && '-' !in spec.repository && '-' !in identifier
    && ':' !in spec.owner && ':' !in spec.organization && ':' !in spec.repository && ':' !in identifier && ':' !in hash
  }

  lemma FourParts(a: string, b: string, c: string, d: string, e: string)
    requires '-' !in a && '-' !in b && '-' !in c && '-' !in d
    ensures Parts(a + ['-'] + (b + ['-'] + (c + ['-'] + (d + ['-'] + e))), '-', 4) == [a, b, c, d, e]
  {
    hide UpTo;
    var t2 := d + ['-'] + e;
    var t1 := c + ['-'] + t2;
    var t0 := b + ['-'] + t1;
    PartsSplit(a, '-', t0, 4);
    PartsSplit(b, '-', t1, 3);
    PartsSplit(c, '-', t2, 2);
    PartsSplit(d, '-', e, 1);
  }

  lemma ImageTag(spec: Spec, identifier: string, hash: string)
    ensures var tag := spec.owner + ['-'] + (spec.organization + ['-'] + (spec.repository + ['-'] + (identifier + ['-'] + hash)));
            ContainerName(spec, identifier, hash) == spec.registry + "/" + spec.registryRepository + "/tmpenv" + [':'] + tag
  {
  }

  lemma ImageShowsBuild(spec: Spec, identifier: string, hash: string)
    ensures ShowsBuild(ContainerName(spec, identifier, hash), spec, identifier, hash)
  {
    ImageEnds(spec, identifier, hash);
    if TagReadable(spec, identifier, hash) { TagReadsBack(spec, identifier, hash); }
    hide ContainerName, EndsWith, AfterLast, Parts, TagReadable;
  }

  lemma ImageEnds(spec: Spec, identifier: string, hash: string)
    ensures var image := ContainerName(spec, identifier, hash);
            && spec.registry + "/" + spec.registryRepository + "/" <= image
            && EndsWith(image, "-" + identifier + "-" + hash) && ('-' !in hash ==> AfterLast(image, '-') == hash)
  {
    hide AfterLast;
    var image := ContainerName(spec, identifier, hash);
    var where := spec.registry + "/" + spec.registryRepository + "/";
    var front := where + "tmpenv:" + spec.owner + "-" + spec.organization + "-" + spec.repository;
    assert image == front + ("-" + identifier + "-" + hash);
    assert image == where + image[|where|..];
    if '-' !in hash {
      assert image == front + "-" + identifier + ['-'] + hash;
      AfterLastSplit(front + "-" + identifier, '-', hash);
    }
  }

  lemma TagReadsBack(spec: Spec, identifier: string, hash: string)
    requires TagReadable(spec, identifier, hash)
    ensures Parts(AfterLast(ContainerName(spec, identifier, hash), ':'), '-', 4) ==
            [spec.owner, spec.organization, spec.repository, identifier, hash]
  {
    hide AfterLast, Parts;
    ImageTag(spec, identifier, hash);
    var tag := spec.owner + ['-'] + (spec.organization + ['-'] + (spec.repository + ['-'] + (identifier + ['-'] + hash)));
    assert ':' !in tag;
    AfterLastSplit(spec.registry + "/" + spec.registryRepository + "/tmpenv", ':', tag);
    FourParts(spec.owner, spec.organization, spec.repository, identifier, hash);
  }

  /** The images of two commits of one instance are different, and so are those of two instances for one commit. */
  lemma ImagesDiffer(spec: Spec, a: string, x: string, b: string, y: string)
    ensures a == b ==> (ContainerName(spec, a, x) == ContainerName(spec, b, y) <==> x == y)
    ensures x == y ==> (ContainerName(spec, a, x) == ContainerName(spec, b, y) <==> a == b)
    ensures '-' !in x && '-' !in y ==> (ContainerName(spec, a, x) == ContainerName(spec, b, y) <==> a == b && x == y)
  {
    var front := spec.registry + "/" + spec.registryRepository + "/tmpenv:" + spec.owner + "-" + spec.organization + "-" + spec.repository + "-";
    var p, q := ContainerName(spec, a, x), ContainerName(spec, b, y);
    assert p == front + (a + "-" + x) && q == front + (b + "-" + y);
    assert p[|front|..] == a + "-" + x && q[|front|..] == b + "-" + y;
    if p == q {
      assert a + "-" + x == b + "-" + y;
      if '-' !in x && '-' !in y {
        AfterLastSplit(a, '-', x);
        AfterLastSplit(b, '-', y);
        assert a + "-" + x == a + ['-'] + x && b + "-" + y == b + ['-'] + y;
      }
      if x == y {
        assert |a| == |b| && (a + "-" + x)[..|a|] == a && (b + "-" + y)[..|b|] == b;
      }
      if a == b {
        assert (a + "-" + x)[|a| + 1..] == x && (b + "-" + y)[|b| + 1..] == y;
      }
    }
  }

  // ---------------------------------------------------------------- who owns which object

  datatype Kind = Deployment | Service | Ingress

  datatype ObjectKey = ObjectKey(kind: Kind, name: string)

  /** The six objects of an instance, in the order they are created and deleted. */
  const SLOTS: seq<(Kind, bool)> :=
    [(Deployment, false), (Service, false), (Deployment, true), (Service, true), (Ingress, true), (Ingress, false)]

  type Slot = k: nat | k < 6

  function SlotKey(k: Slot, name: string): ObjectKey {
    var (kind, proxy) := SLOTS[k];
    ObjectKey(kind, if proxy then ProxyName(name) else name)
  }

  /** The instance name an object belongs to when no instance name ends in "-auth-proxy". */
  function OwnerName(objectName: string): string {
    if EndsWith(objectName, PROXY_SUFFIX) then objectName[..|objectName| - |PROXY_SUFFIX|] else objectName
  }

  lemma ProxyNameEnds(name: string)
    ensures EndsWith(ProxyName(name), PROXY_SUFFIX)
    ensures ProxyName(name)[..|ProxyName(name)| - |PROXY_SUFFIX|] == name
  {
  }

  lemma SlotOwner(k: Slot, name: string)
    requires !EndsWith(name, PROXY_SUFFIX)
    ensures OwnerName(SlotKey(k, name).name) == name
  {
    ProxyNameEnds(name);
  }

  lemma PullRequestNameIsNotProxy(spec: Spec, number: PrNumber)
    ensures !EndsWith(PullRequestName(spec, number), PROXY_SUFFIX)
  {
    var n := PullRequestName(spec, number);
    var head := PullRequestNameShape(spec.owner, spec.name, spec.organization, spec.repository, number);
    assert IsDigit(n[|n| - 1]) by { assert n[|n| - 1] == Itoa(number)[|Itoa(number)| - 1]; }
  }

  lemma SlotsAreDisjoint(a: string, b: string, i: Slot, j: Slot)
    requires !EndsWith(a, PROXY_SUFFIX) && !EndsWith(b, PROXY_SUFFIX)
    requires SlotKey(i, a) == SlotKey(j, b)
    ensures a == b && i == j
  {
    SlotOwner(i, a);
    SlotOwner(j, b);
    assert |ProxyName(a)| > |a|;
  }

  /** Two pull request instances with different names never touch the same cluster object, and no
      proxy name is an instance name. */
  lemma ObjectsAreDisjoint(s1: Spec, n1: PrNumber, s2: Spec, n2: PrNumber, i: Slot, j: Slot)
    ensures ProxyName(PullRequestName(s1, n1)) != PullRequestName(s2, n2)
    ensures PullRequestName(s1, n1) != PullRequestName(s2, n2)
            ==> SlotKey(i, PullRequestName(s1, n1)) != SlotKey(j, PullRequestName(s2, n2))
    ensures SlotKey(i, PullRequestName(s1, n1)) == SlotKey(j, PullRequestName(s1, n1)) ==> i == j
  {
    var a, b := PullRequestName(s1, n1), PullRequestName(s2, n2);
    PullRequestNameIsNotProxy(s1, n1);
    PullRequestNameIsNotProxy(s2, n2);
    if SlotKey(i, a) == SlotKey(j, b) { SlotsAreDisjoint(a, b, i, j); }
    if SlotKey(i, a) == SlotKey(j, a) { SlotsAreDisjoint(a, a, i, j); }
    ProxyNameEnds(a);
  }

  predicate ShareAnObject(a: string, b: string) { exists i: Slot, j: Slot :: SlotKey(i, a) == SlotKey(j, b) }

  /** Two names share a cluster object if and only if they are equal or one is the other's proxy name. */
  lemma ShareAnObjectIff(a: string, b: string)
    ensures ShareAnObject(a, b) <==> a == b || a == ProxyName(b) || b == ProxyName(a)
  {
    if i: Slot, j: Slot :| SlotKey(i, a) == SlotKey(j, b) {
      if ProxyName(a) == ProxyName(b) { assert ProxyName(a)[..|a|] == ProxyName(b)[..|b|]; }
    }
    if a == b { assert SlotKey(0, a) == SlotKey(0, b); }
    if a == ProxyName(b) { assert SlotKey(0, a) == SlotKey(2, b); }
    if b == ProxyName(a) { assert SlotKey(2, a) == SlotKey(0, b); }
  }

  /** Cutting a name that ends like a proxy's gives the proxy name of the cut name if and only if nothing is cut off, or
      exactly the four characters that are put in front again. */
  lemma ShortenedProxyIff(full: string)
    requires INSTANCE_PREFIX <= full
    ensures Shorten(full + PROXY_SUFFIX) == ProxyName(Shorten(full)) <==>
            (|full| + |PROXY_SUFFIX| <= NAME_KEEP || |full| + |PROXY_SUFFIX| == NAME_KEEP + |INSTANCE_PREFIX|)
  {
    var long := full + PROXY_SUFFIX;
    if |long| == NAME_KEEP + |INSTANCE_PREFIX| {
      assert long == INSTANCE_PREFIX + long[|INSTANCE_PREFIX|..];
    }
  }

  lemma ProxyBranch(spec: Spec, number: PrNumber)
    ensures var id := "pr-" + Itoa(number);
            && FullName(spec.owner, spec.name, spec.organization, spec.repository, id + PROXY_SUFFIX)
               == FullName(spec.owner, spec.name, spec.organization, spec.repository, id) + PROXY_SUFFIX
            && INSTANCE_PREFIX <= FullName(spec.owner, spec.name, spec.organization, spec.repository, id)
  {
    var head := INSTANCE_PREFIX + spec.owner + "-" + spec.name + "-" + spec.organization + "-" + spec.repository + "-";
    var id := "pr-" + Itoa(number);
    assert head + (id + PROXY_SUFFIX) == (head + id) + PROXY_SUFFIX;
    NormaliseConcat(head + id, PROXY_SUFFIX);
    assert Normalise(PROXY_SUFFIX) == PROXY_SUFFIX;
    assert (head + id)[..4] == INSTANCE_PREFIX;
    assert Normalise(head + id)[..4] == INSTANCE_PREFIX;
  }

  /** So the branch "pr-<number>-auth-proxy" takes the name of the pull request's proxy, and with it its objects, exactly
      when the pull request's full name has at most 34 or exactly 38 characters; otherwise they share nothing. */
  lemma BranchCanNameAProxy(spec: Spec, number: PrNumber)
    ensures var id := "pr-" + Itoa(number); var branch := BranchName(spec, id + PROXY_SUFFIX); var pull := PullRequestName(spec, number);
            var length := |FullName(spec.owner, spec.name, spec.organization, spec.repository, id)|;
            && (branch == ProxyName(pull) <==> length <= 34 || length == 38)
            && (ShareAnObject(branch, pull) <==> length <= 34 || length == 38)
  {
    var id := "pr-" + Itoa(number);
    ProxyBranch(spec, number);
    var full := FullName(spec.owner, spec.name, spec.organization, spec.repository, id);
    ShortenedProxyIff(full);
    var branch, pull := BranchName(spec, id + PROXY_SUFFIX), PullRequestName(spec, number);
    ShareAnObjectIff(branch, pull);
    PullRequestNameIsNotProxy(spec, number);
    ShortenedEnds(full);
    ProxyNameEnds(branch);
  }

  lemma ShortenedEnds(full: string)
    ensures EndsWith(Shorten(full + PROXY_SUFFIX), PROXY_SUFFIX)
  {
  }

  /** A build job is never found under the bare name of an instance. */
  lemma JobNameIsNoInstanceName(job: string, name: string)
    requires BUILD_PREFIX <= job && INSTANCE_PREFIX <= name
    ensures job != name
  {
    assert job[0] == 'b' && name[0] == 'p';
  }

  lemma InstanceNamePrefix(owner: string, pe: string, org: string, repo: string, identifier: string)
    ensures INSTANCE_PREFIX <= InstanceName(owner, pe, org, repo, identifier)
  {
    var raw := INSTANCE_PREFIX + owner + "-" + pe + "-" + org + "-" + repo + "-" + identifier;
    assert raw[..4] == INSTANCE_PREFIX;
    assert Normalise(raw)[..4] == INSTANCE_PREFIX;
  }

  // ---------------------------------------------------------------- URL paths

  /** Reads (organization, repository, identifier, hash) back from a path; the identifier may hold slashes. */
  function ParsePath(path: string): Option<(string, string, string, string)> {
    if path == "" || path[0] != '/' then None else
      var org := UpTo(path[1..], '/');
      var r1 := path[1 + |org|..];
      if r1 == "" then None else
        var repo := UpTo(r1[1..], '/');
        var r2 := r1[1 + |repo|..];
        if r2 == "" then None else
          var hash := AfterLast(r2[1..], '/');
          if |hash| == |r2[1..]| then None else
            Some((org, repo, r2[1..|r2| - 1 - |hash|], hash))
  }

  lemma JoinPath(org: string, repo: string, identifier: string, hash: string, r1: string, r2: string)
    requires r2 == "/" + identifier + "/" + hash && r1 == "/" + repo + r2
    ensures "/" + org + r1 == HttpPath(org, repo, identifier, hash)
  {
    assert r1 == "/" + repo + "/" + identifier + "/" + hash;
  }

  lemma ParseHead(segment: string, rest: string)
    requires '/' !in segment
    ensures var s := "/" + segment + "/" + rest;
            UpTo(s[1..], '/') == segment && s[1 + |segment|..] == "/" + rest
  {
    var s := "/" + segment + "/" + rest;
    assert s[1..] == segment + "/" + rest;
    UpToSplit(segment, '/', rest);
  }

  lemma ParseTail(identifier: string, hash: string)
    requires '/' !in hash
    ensures var s := "/" + identifier + "/" + hash;
            AfterLast(s[1..], '/') == hash && s[1..|s| - 1 - |hash|] == identifier
  {
    var s := "/" + identifier + "/" + hash;
    assert s[1..] == identifier + ['/'] + hash;
    AfterLastSplit(identifier, '/', hash);
  }

  /** The four parts of a URL path are recovered from it, slashes in the identifier included. */
  lemma PathsParseBack(org: string, repo: string, identifier: string, hash: string)
    requires '/' !in org && '/' !in repo && '/' !in hash
    ensures ParsePath(HttpPath(org, repo, identifier, hash)) == Some((org, repo, identifier, hash))
  {
    var r2 := "/" + identifier + "/" + hash;
    var r1 := "/" + repo + r2;
    JoinPath(org, repo, identifier, hash, r1, r2);
    assert r1 == "/" + repo + "/" + (identifier + "/" + hash);
    assert HttpPath(org, repo, identifier, hash) == "/" + org + "/" + r1[1..];
    ParseHead(org, r1[1..]);
    ParseHead(repo, identifier + "/" + hash);
    ParseTail(identifier, hash);
    assert "/" + r1[1..] == r1 && "/" + (identifier + "/" + hash) == r2;
  }

  /** A path that names organization, repository, identifier and hash, as far as slashes let it. */
  predicate ShowsPath(path: string, spec: Spec, identifier: string, hash: string) {
    '/' !in spec.organization && '/' !in spec.repository && '/' !in hash ==>
      ParsePath(path) == Some((spec.organization, spec.repository, identifier, hash))
  }

  /** A URL on the host of the environment with such a path. */
  predicate ShowsUrl(url: string, spec: Spec, identifier: string, hash: string) {
    var front := "https://" + spec.hostname;
    front <= url && ShowsPath(url[|front|..], spec, identifier, hash)
  }

  lemma SplitAtSlash(s: string)
    requires s != "" && s[0] == '/'
    ensures var head := UpTo(s[1..], '/'); var rest := s[1 + |head|..];
            s == "/" + head + rest && '/' !in head && (rest != "" ==> rest[0] == '/')
  {
    UpToParts(s[1..], '/');
    var head := UpTo(s[1..], '/');
    assert s[1..][..|head|] == head;
  }

  lemma SplitAtLastSlash(s: string)
    requires s != "" && s[0] == '/' && |AfterLast(s[1..], '/')| < |s[1..]|
    ensures var hash := AfterLast(s[1..], '/');
            s == "/" + s[1..|s| - 1 - |hash|] + "/" + hash && '/' !in hash
  {
    AfterLastParts(s[1..], '/');
    var hash := AfterLast(s[1..], '/');
    assert s[|s| - |hash|..] == hash;
    assert s[|s| - |hash| - 1] == '/';
  }

  /** Conversely, whatever parses is the path of what it parses to. */
  lemma ParsedPathsPrintBack(path: string)
    requires ParsePath(path).Some?
    ensures var (org, repo, identifier, hash) := ParsePath(path).value;
            '/' !in org && '/' !in repo && '/' !in hash && HttpPath(org, repo, identifier, hash) == path
  {
    var (org, repo, identifier, hash) := ParsePath(path).value;
    hide UpTo, AfterLast, HttpPath;
    var r1 := path[1 + |org|..];
    SplitAtSlash(path);
    var r2 := r1[1 + |repo|..];
    SplitAtSlash(r1);
    SplitAtLastSlash(r2);
    JoinPath(org, repo, identifier, hash, r1, r2);
  }
}
