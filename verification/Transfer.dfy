/** Downloading one file: an attempt that resumes, restarts or finds the file
    complete, with a hash computed as the bytes arrive, and the retry loop. */
module Transfer {
  import opened Basics

  /** The two hash functions, which stay abstract. */
  datatype Hashes = Hashes(sha256: Bytes -> string, sha1: Bytes -> string)

  datatype Digests = Digests(sha256: string, gitBlob: string, size: int)

  function Signed(n: int): string {
    if n < 0 then "-" + Decimal(-n) else Decimal(n)
  }

  lemma SignedIsAscii(n: int)
    ensures forall i | 0 <= i < |Signed(n)| :: Signed(n)[i] as int < 256
  {
  }

  /** What git hashes before the content of a blob. */
  function GitHeader(size: int): Bytes {
    SignedIsAscii(size);
    Ascii("blob " + Signed(size) + "\0")
  }

  /** The digests of a whole content; the git one only when the size was known. */
  function DigestsOf(h: Hashes, content: Bytes, expectedSize: int): Digests {
    Digests(h.sha256(content), if expectedSize >= 0 then h.sha1(GitHeader(expectedSize) + content) else "", |content|)
  }

  /** The hasher fed as the bytes arrive. */
  class StagedHasher {
    const hashes: Hashes
    var content: Bytes
    var gitBlob: Option<Bytes>

    ghost predicate Absorbed(bytes: Bytes, expectedSize: int)
      reads this
    {
      && content == bytes
      && gitBlob == if expectedSize >= 0 then Some(GitHeader(expectedSize) + bytes) else None
    }

    /** Starts from the part of the file that is already there. */
    constructor (h: Hashes, file: Bytes, prefixLength: nat, expectedSize: int)
      requires prefixLength <= |file|
      ensures hashes == h && Absorbed(file[..prefixLength], expectedSize)
    {
      hashes := h;
      content := [];
      gitBlob := if expectedSize >= 0 then Some(GitHeader(expectedSize)) else None;
      new;
      assert GitHeader(expectedSize) + [] == GitHeader(expectedSize);
      if prefixLength != 0 {
        Write(file[..prefixLength]);
      }
    }

    method Write(bytes: Bytes)
      modifies this
      ensures content == old(content) + bytes
      ensures gitBlob == if old(gitBlob).Some? then Some(old(gitBlob).value + bytes) else None
    {
      content := content + bytes;
      if gitBlob.Some? {
        gitBlob := Some(gitBlob.value + bytes);
      }
    }

    method Sum(size: int) returns (d: Digests)
      ensures d == Digests(hashes.sha256(content), if gitBlob.Some? then hashes.sha1(gitBlob.value) else "", size)
    {
      d := Digests(hashes.sha256(content), "", size);
      if gitBlob.Some? {
        d := d.(gitBlob := hashes.sha1(gitBlob.value));
      }
    }
  }

  /** A hasher for the first bytes of the staged file. `file` is what can be read of it;
      nothing when it cannot be opened, too little when it shrank. */
  method NewStagedHasher(h: Hashes, file: Option<Bytes>, prefixLength: nat, expectedSize: int) returns (hasher: StagedHasher?)
    ensures hasher == null <==> prefixLength > 0 && (file.None? || |file.value| < prefixLength)
    ensures hasher != null ==>
              && fresh(hasher) && hasher.hashes == h
              && hasher.Absorbed(if prefixLength == 0 then [] else file.value[..prefixLength], expectedSize)
  {
    if prefixLength == 0 {
      hasher := new StagedHasher(h, [], 0, expectedSize);
      return;
    }
    if file.None? || |file.value| < prefixLength {
      return null;
    }
    hasher := new StagedHasher(h, file.value, prefixLength, expectedSize);
  }

  // ---------- One attempt ----------

  /** Which operations on the staged file succeed in an attempt: removing it when it is too
      long, opening it, emptying it, moving to its start, reading it back, writing it through. */
  datatype Disk = Disk(removes: bool, opens: bool, truncates: bool, seeks: bool, readsBack: bool, syncs: bool)

  /** What comes back for a request; `whole` is false when reading the body ends in an error. */
  datatype Reply = NoReply | Reply(status: int, contentRange: string, body: Bytes, whole: bool)

  datatype Outcome = Fetched(digests: Digests) | Retryable | Permanent | Cancelled

  datatype Verdict = Usable | AlreadyComplete | Later | Never

  predicate RetryableStatus(status: int) {
    status == 408 || status == 429 || status >= 500
  }

  function Classify(status: int, expectedSize: int, offset: nat): Verdict {
    if status == 200 || status == 206 then Usable
    else if status == 416 && expectedSize >= 0 && offset == expectedSize then AlreadyComplete
    else if status == 401 || status == 403 then Never
    else if RetryableStatus(status) then Later
    else Never
  }

  predicate RangeMatches(contentRange: string, offset: nat) {
    "bytes " + Decimal(offset) + "-" <= contentRange
  }

  /** The staged bytes an attempt starts from: too long a file is thrown away. */
  function Opened(staged: Option<Bytes>, expectedSize: int): Bytes {
    if staged.None? || (expectedSize >= 0 && |staged.value| > expectedSize) then [] else staged.value
  }

  predicate TooLong(staged: Option<Bytes>, expectedSize: int) {
    staged.Some? && expectedSize >= 0 && |staged.value| > expectedSize
  }

  /** Whether the staged file can be opened for an attempt. */
  predicate Opens(staged: Option<Bytes>, expectedSize: int, disk: Disk) {
    disk.opens && (TooLong(staged, expectedSize) ==> disk.removes)
  }

  /** What is staged when it cannot. */
  function Unopened(staged: Option<Bytes>, expectedSize: int, disk: Disk): Option<Bytes> {
    if TooLong(staged, expectedSize) && disk.removes then None else staged
  }

  /** Nothing on the disk comes between a usable reply and its body. */
  predicate Prepares(reply: Reply, offset: nat, disk: Disk) {
    if reply.Reply? && reply.status == 200 then offset > 0 ==> disk.truncates && disk.seeks
    else offset > 0 ==> disk.readsBack
  }

  /** What an attempt on an opened file leaves staged. */
  function Left(file: Bytes, reply: Reply, disk: Disk): Bytes {
    if Appends(reply, |file|) && Prepares(reply, |file|, disk) then Received(file, reply)
    else if reply.Reply? && reply.status == 200 && |file| > 0 && disk.truncates then []
    else file
  }

  /** The staged bytes once the reply is consumed. */
  function Received(file: Bytes, reply: Reply): Bytes {
    if reply.NoReply? then file
    else if reply.status == 200 then reply.body
    else if reply.status == 206 && RangeMatches(reply.contentRange, |file|) then file + reply.body
    else file
  }

  /** The body of the reply goes to the file, either from the start or from where the file ends. */
  predicate Appends(reply: Reply, offset: nat) {
    reply.Reply? && (reply.status == 200 || (reply.status == 206 && RangeMatches(reply.contentRange, offset)))
  }

  class Download {
    const hashes: Hashes
    const expectedSize: int
    const retryLimit: int
    /** The staged file, if there is one. */
    var staged: Option<Bytes>

    constructor (hashes: Hashes, expectedSize: int, retryLimit: int, staged: Option<Bytes>)
      ensures this.hashes == hashes && this.expectedSize == expectedSize && this.retryLimit == retryLimit
      ensures this.staged == staged
    {
      this.hashes, this.expectedSize, this.retryLimit, this.staged := hashes, expectedSize, retryLimit, staged;
    }

    function RetryBudget(): nat {
      if retryLimit < 0 then 0 else retryLimit
    }

    /** The digests are those of exactly the staged bytes, and these are as many as expected. */
    ghost predicate Verified(d: Digests)
      reads this
    {
      && staged.Some? && d == DigestsOf(hashes, staged.value, expectedSize)
      && (expectedSize >= 0 ==> d.size == |staged.value| == expectedSize)
    }

    /** One attempt. It succeeds exactly when the file was complete already and can be read back,
        or all of the body arrived, made up the expected size and was written through. */
    method Attempt(server: nat -> Reply, disk: Disk) returns (outcome: Outcome, written: nat)
      modifies this
      ensures !Opens(old(staged), expectedSize, disk) ==>
                staged == Unopened(old(staged), expectedSize, disk) && outcome.Retryable? && written == 0
      ensures Opens(old(staged), expectedSize, disk) ==>
                var file := Opened(old(staged), expectedSize);
                var reply := server(|file|);
                && staged == Some(Left(file, reply, disk))
                && (written > 0 ==> Appends(reply, |file|) && Prepares(reply, |file|, disk) && written == |reply.body|)
                && (outcome.Permanent? ==> reply.Reply?)
                && (outcome.Fetched? <==>
                      && reply.Reply?
                      && (|| (Classify(reply.status, expectedSize, |file|).AlreadyComplete? && (|file| > 0 ==> disk.readsBack))
                          || (Appends(reply, |file|) && Prepares(reply, |file|, disk) && reply.whole && disk.syncs
                              && (expectedSize >= 0 ==> |staged.value| == expectedSize))))
      ensures outcome.Fetched? ==> Verified(outcome.digests)
      ensures !outcome.Cancelled?
    {
      var usable, offset := OpenStaging(disk);
      if !usable {
        return Retryable, 0;
      }
      var reply := server(offset);
      written := 0;
      if reply.NoReply? {
        return Retryable, 0;
      }
      match Classify(reply.status, expectedSize, offset) {
        case AlreadyComplete =>
          outcome := HashComplete(offset, disk.readsBack);
          return outcome, 0;
        case Never => return Permanent, 0;
        case Later => return Retryable, 0;
        case Usable =>
      }
      if offset > 0 && reply.status == 200 {
        if !disk.truncates {
          return Retryable, 0;
        }
        staged := Some([]);
        offset := 0;
        if !disk.seeks {
          return Retryable, 0;
        }
      }
      if reply.status == 206 && !RangeMatches(reply.contentRange, offset) {
        return Permanent, 0;
      }
      var hasher := NewStagedHasher(hashes, if disk.readsBack then staged else None, offset, expectedSize);
      if hasher == null {
        return Retryable, 0;
      }
      assert [] + reply.body == reply.body;
      outcome := Receive(hasher, offset, reply, disk.syncs);
      written := |reply.body|;
    }

    /** The digests of a file that is complete already. */
    method HashComplete(offset: nat, readable: bool) returns (outcome: Outcome)
      requires staged.Some? && offset == |staged.value| == expectedSize
      ensures outcome.Fetched? <==> (offset > 0 ==> readable)
      ensures outcome.Fetched? ==> Verified(outcome.digests)
      ensures !outcome.Fetched? ==> outcome.Retryable?
    {
      var whole := NewStagedHasher(hashes, if readable then staged else None, offset, expectedSize);
      if whole == null {
        return Retryable;
      }
      assert staged.value[..offset] == staged.value;
      var digests := whole.Sum(offset);
      return Fetched(digests);
    }

    method OpenStaging(disk: Disk) returns (usable: bool, offset: nat)
      modifies this
      ensures usable == Opens(old(staged), expectedSize, disk)
      ensures usable ==> staged == Some(Opened(old(staged), expectedSize)) && offset == |staged.value|
      ensures !usable ==> staged == Unopened(old(staged), expectedSize, disk)
    {
      if staged.Some? {
        if expectedSize >= 0 && |staged.value| > expectedSize {
          if !disk.removes {
            return false, 0;
          }
          staged := None;
        } else {
          return disk.opens, |staged.value|;
        }
      }
      if !disk.opens {
        return false, 0;
      }
      staged := Some([]);
      return true, 0;
    }

    /** Copies the body to the file and the hasher at once. */
    method Receive(hasher: StagedHasher, offset: nat, reply: Reply, syncs: bool) returns (outcome: Outcome)
      requires reply.Reply? && staged.Some? && offset == |staged.value|
      requires hasher.hashes == hashes && hasher.Absorbed(staged.value, expectedSize)
      modifies this, hasher
      ensures staged == Some(old(staged).value + reply.body)
      ensures outcome.Fetched? <==> reply.whole && syncs && (expectedSize >= 0 ==> |staged.value| == expectedSize)
      ensures outcome.Fetched? ==> Verified(outcome.digests)
      ensures !outcome.Fetched? ==> outcome.Retryable?
    {
      ghost var before := staged.value;
      staged := Some(staged.value + reply.body);
      hasher.Write(reply.body);
      if !reply.whole || !syncs {
        return Retryable;
      }
      var actualSize := offset + |reply.body|;
      if expectedSize >= 0 && actualSize != expectedSize {
        return Retryable;
      }
      assert (GitHeader(expectedSize) + before) + reply.body == GitHeader(expectedSize) + (before + reply.body);
      var digests := hasher.Sum(actualSize);
      return Fetched(digests);
    }

    // ---------- The retry loop ----------

    /** Attempts until one succeeds, one fails for good, too many in a row make
        no progress, or the context is cancelled, which happens at attempt
        `cancelledAt`. */
    method DownloadFile(server: (nat, nat) -> Reply, disk: nat -> Disk, cancelledAt: nat, ghost truth: Bytes) returns (outcome: Outcome, attempts: nat)
      modifies this
      ensures outcome.Fetched? ==> Verified(outcome.digests)
      ensures outcome.Cancelled? ==> attempts == cancelledAt
      ensures Honest(server, truth) && |truth| == expectedSize ==>
                && attempts <= (expectedSize + 1) * (RetryBudget() + 1)
                && (outcome.Cancelled? ==> attempts < (expectedSize + 1) * (RetryBudget() + 1))
      ensures Honest(server, truth) && |truth| == expectedSize && old(Partial(truth)) ==>
                Partial(truth) && (outcome.Fetched? ==> staged == Some(truth))
    {
      var failures := 0;
      attempts := 0;
      ghost var bounded := Honest(server, truth) && |truth| == expectedSize;
      ghost var partial := bounded && old(Partial(truth));
      while attempts < cancelledAt
        invariant attempts <= cancelledAt && failures <= RetryBudget()
        invariant partial ==> Partial(truth)
        invariant bounded ==> attempts <= |Opened(staged, expectedSize)| * (RetryBudget() + 1) + failures
        decreases cancelledAt - attempts
      {
        ghost var file := Opened(staged, expectedSize);
        var n := attempts;
        var written;
        outcome, written := Attempt((offset: nat) => server(n, offset), disk(n));
        attempts := attempts + 1;
        if bounded {
          HonestAttempt(server, truth, n, file, disk(n));
          Progress(|file|, |Opened(staged, expectedSize)|, n, failures, RetryBudget(), expectedSize);
        }
        if !outcome.Retryable? {
          assert partial && outcome.Fetched? ==> staged.value == truth[..|truth|] == truth;
          return;
        }
        if written > 0 {
          failures := 0;
        }
        failures := failures + 1;
        if failures > RetryBudget() {
          return Permanent, attempts;
        }
      }
      if bounded {
        Progress(|Opened(staged, expectedSize)|, |Opened(staged, expectedSize)|, attempts, failures, RetryBudget(), expectedSize);
      }
      outcome := Cancelled;
    }

    /** What is staged, once too long a file is discounted, is a first part of the true file. */
    ghost predicate Partial(truth: Bytes)
      reads this
    {
      Opened(staged, expectedSize) <= truth
    }

    /** Verifies the download against what the repository promised: a SHA-256, or else a git
        blob digest, where it is one. */
    method TransferFile(server: (nat, nat) -> Reply, disk: nat -> Disk, cancelledAt: nat, expectedSha256: string, expectedGitOid: string)
      returns (ok: bool)
      modifies this
      ensures ok ==> staged.Some? && |staged.value| == expectedSize
      ensures ok && ValidSha256(WithoutPrefix(expectedSha256)) ==> hashes.sha256(staged.value) == WithoutPrefix(expectedSha256)
      ensures ok && !ValidSha256(WithoutPrefix(expectedSha256)) && ValidGitId(Lower(expectedGitOid)) ==>
                hashes.sha1(GitHeader(expectedSize) + staged.value) == Lower(expectedGitOid)
    {
      var outcome, attempts := DownloadFile(server, disk, cancelledAt, []);
      if !outcome.Fetched? {
        return false;
      }
      ok := VerifyStaged(outcome.digests, expectedSize, expectedSha256, expectedGitOid);
      if !ok {
        staged := None;
      }
    }
  }

  predicate HexDigits(s: string) {
    forall c | c in s :: '0' <= c <= '9' || 'a' <= c <= 'f'
  }

  const SHA256_PREFIX := "sha256:"

  function WithoutPrefix(s: string): string {
    if SHA256_PREFIX <= s then s[|SHA256_PREFIX|..] else s
  }

  predicate ValidSha256(s: string) {
    |s| == 64 && HexDigits(s)
  }

  predicate ValidGitId(s: string) {
    |s| == 40 && HexDigits(s)
  }

  /** Lower case, of the letters of ASCII; no other character is ever a hexadecimal digit. */
  function Lower(s: string): string {
    seq(|s|, i requires 0 <= i < |s| => if 'A' <= s[i] <= 'Z' then ((s[i] as int) + 32) as char else s[i])
  }

  method VerifyStaged(d: Digests, size: int, expectedSha256: string, expectedGitOid: string) returns (ok: bool)
    ensures ok <==>
              && d.size == size
              && if ValidSha256(WithoutPrefix(expectedSha256)) then d.sha256 == WithoutPrefix(expectedSha256)
                 else ValidGitId(Lower(expectedGitOid)) ==> d.gitBlob == Lower(expectedGitOid)
  {
    if d.size != size {
      return false;
    }
    var expected := WithoutPrefix(expectedSha256);
    if ValidSha256(expected) {
      return d.sha256 == expected;
    }
    expected := Lower(expectedGitOid);
    return !ValidGitId(expected) || d.gitBlob == expected;
  }

  /** A server that answers each range with true bytes from the requested
      offset: possibly too few, possibly none, possibly an error, never others. */
  ghost predicate HonestReply(reply: Reply, truth: Bytes, offset: nat) {
    reply.Reply? && (reply.status == 200 || reply.status == 206) ==>
      && (reply.status == 200 ==> offset == 0)
      && offset <= |truth| && reply.body <= truth[offset..]
  }

  ghost predicate Honest(server: (nat, nat) -> Reply, truth: Bytes) {
    forall n: nat, offset: nat :: HonestReply(server(n, offset), truth, offset)
  }

  lemma HonestAttempt(server: (nat, nat) -> Reply, truth: Bytes, n: nat, file: Bytes, disk: Disk)
    requires Honest(server, truth) && |file| <= |truth|
    ensures var reply := server(n, |file|);
            var left := Left(file, reply, disk);
            && |file| <= |left| <= |truth| && (file <= truth ==> left <= truth)
            && (Appends(reply, |file|) && Prepares(reply, |file|, disk) ==> |left| == |file| + |reply.body|)
  {
    assert HonestReply(server(n, |file|), truth, |file|);
  }

  /** The lexicographic measure, as a bound on the number of attempts. */
  lemma Progress(had: nat, has: nat, n: nat, failures: nat, budget: nat, size: nat)
    requires had <= has <= size && failures <= budget && n <= had * (budget + 1) + failures
    ensures n + 1 <= (size + 1) * (budget + 1)
    ensures had < has ==> n + 1 <= has * (budget + 1) + 1
    ensures n + 1 <= has * (budget + 1) + failures + 1
  {
    if had < has {
      assert (had + 1) * (budget + 1) <= has * (budget + 1);
    }
    assert had * (budget + 1) <= has * (budget + 1) <= size * (budget + 1);
  }
}
