/** The paginated image collector inside `handleGetImagesForPage` (src/index.ts): up to
    ceil(maxImages / 50) calls of `page.images({limit})`, each asking for what is still
    missing (at most 50), keeping the records whose url is new and looks like an image. */
module ImageCollector {
  import opened Js

  /** The largest `limit` one images() call asks for. */
  const BatchSize: nat := 50

  datatype ImageRecord = ImageRecord(url: string, title: string)

  /** What one `page.images({limit})` call gives: an array of records, nothing (null or
      undefined), or a thrown value. A returned array holding a record whose url is not a
      string makes the filter throw, which the loop handles exactly like a throwing call;
      such a batch is given as `Threw`. */
  datatype BatchOutcome = Returned(records: seq<ImageRecord>) | Missing | Threw(e: Exception)

  /** The provider's answer to the k-th images() call of a run when it asks for n records. */
  type ImagesProvider = (nat, nat) -> BatchOutcome

  function Min(a: int, b: int): int {
    if a <= b then a else b
  }

  /** `Math.ceil(maxImages / 50)` as a loop bound: no iteration for NaN or a quota that is not
      positive. */
  function BatchCount(maxImages: Numeric): nat {
    match maxImages
    case NaN => 0
    case Num(m) => if m <= 0 then 0 else (m + BatchSize - 1) / BatchSize
  }

  /** For a positive quota the loop bound is the least number of full batches covering it. */
  lemma BatchCountIsCeiling(m: int)
    requires m > 0
    ensures BatchSize * (BatchCount(Num(m)) - 1) < m <= BatchSize * BatchCount(Num(m))
  {
    var c := BatchCount(Num(m));
    assert c == (m + 49) / 50;
    assert 50 * c <= m + 49 < 50 * c + 50;
  }

  /** The lower-cased url ends in .svg, .gif, .jpg, .jpeg, .png or .webp. */
  predicate HasImageExtension(url: string) {
    var lower := ToLower(url);
    EndsWith(lower, ".svg") || EndsWith(lower, ".gif") || EndsWith(lower, ".jpg")
    || EndsWith(lower, ".jpeg") || EndsWith(lower, ".png") || EndsWith(lower, ".webp")
  }

  /** `collected.some(img => img.url === url)` */
  predicate UrlTaken(collected: seq<ImageRecord>, url: string) {
    exists j :: 0 <= j < |collected| && collected[j].url == url
  }

  /** The filter callback: not a url already collected, and an image extension. */
  predicate Keep(collected: seq<ImageRecord>, r: ImageRecord) {
    !UrlTaken(collected, r.url) && HasImageExtension(r.url)
  }

  /** xs is ys with some elements left out, the rest in their order. */
  predicate Subsequence<T(==)>(xs: seq<T>, ys: seq<T>)
    decreases |ys|
  {
    if ys == [] then xs == []
    else (xs != [] && xs[0] == ys[0] && Subsequence(xs[1..], ys[1..])) || Subsequence(xs, ys[1..])
  }

  /** `batch.filter(...)` against the records collected before the batch. Records of the
      batch are not compared with each other. */
  function Survivors(batch: seq<ImageRecord>, collected: seq<ImageRecord>): (kept: seq<ImageRecord>)
    ensures |kept| <= |batch|
    ensures forall r :: r in kept <==> r in batch && Keep(collected, r)
    decreases |batch|
  {
    if batch == [] then []
    else (if Keep(collected, batch[0]) then [batch[0]] else []) + Survivors(batch[1..], collected)
  }

  /** The filter keeps the records that pass in batch order. */
  lemma {:induction false} SurvivorsInOrder(batch: seq<ImageRecord>, collected: seq<ImageRecord>)
    ensures Subsequence(Survivors(batch, collected), batch)
    decreases |batch|
  {
    if batch != [] {
      var rest := Survivors(batch[1..], collected);
      SurvivorsInOrder(batch[1..], collected);
      if Keep(collected, batch[0]) {
        assert Survivors(batch, collected) == [batch[0]] + rest;
        assert ([batch[0]] + rest)[1..] == rest;
      } else {
        assert Survivors(batch, collected) == rest;
      }
    }
  }

  /** The filter keeps each record that passes as often as it occurs in the batch: two
      copies of one record both survive. */
  lemma {:induction false} SurvivorsKeepCopies(batch: seq<ImageRecord>, collected: seq<ImageRecord>)
    ensures forall r :: multiset(Survivors(batch, collected))[r]
                        == if Keep(collected, r) then multiset(batch)[r] else 0
    decreases |batch|
  {
    if batch != [] {
      var rest := Survivors(batch[1..], collected);
      SurvivorsKeepCopies(batch[1..], collected);
      assert multiset(batch) == multiset{batch[0]} + multiset(batch[1..]) by {
        assert batch == [batch[0]] + batch[1..];
      }
      if Keep(collected, batch[0]) {
        assert Survivors(batch, collected) == [batch[0]] + rest;
        assert multiset([batch[0]] + rest) == multiset{batch[0]} + multiset(rest);
      } else {
        assert Survivors(batch, collected) == rest;
      }
    }
  }

  /** What a call adds to the collection. */
  function Contribution(o: BatchOutcome, collected: seq<ImageRecord>): seq<ImageRecord> {
    if o.Returned? then Survivors(o.records, collected) else []
  }

  /** Whether the loop goes on to its next iteration after a call that asked for `size`:
      the call threw an ordinary exception (swallowed), or it returned at least `size`
      records of which some survived the filter. */
  predicate Continues(o: BatchOutcome, size: nat, collected: seq<ImageRecord>) {
    || (o.Threw? && o.e.Thrown?)
    || (o.Returned? && |o.records| >= size && |Survivors(o.records, collected)| > 0)
  }

  /** A call that threw null or undefined: logging its `.message` in the inner catch raises a
      TypeError, which ends the loop and the whole collection. */
  function AbortOf(o: BatchOutcome): Option<string> {
    if o.Threw? && !o.e.Thrown? then Some(ReadMessage(o.e).typeError) else None
  }

  /** A run of the loop: the final collection, the limit asked for by each images() call,
      the size of the collection when each call was made, and the TypeError that aborted
      the run, if any. */
  datatype Trace = Trace(images: seq<ImageRecord>, requests: seq<nat>, starts: seq<nat>, failure: Option<string>)

  /** The loop from iteration `|starts|` on, with `acc` collected so far. */
  function CollectFrom(m: int, batches: nat, provider: ImagesProvider, acc: seq<ImageRecord>,
                       requests: seq<nat>, starts: seq<nat>): Trace
    decreases batches - |starts|
  {
    if |starts| >= batches || |acc| >= m then Trace(acc, requests, starts, None)
    else
      var size := Min(BatchSize, m - |acc|);
      var o := provider(|starts|, size);
      var acc' := acc + Contribution(o, acc);
      if Continues(o, size, acc) then CollectFrom(m, batches, provider, acc', requests + [size], starts + [|acc|])
      else Trace(acc', requests + [size], starts + [|acc|], AbortOf(o))
  }

  /** One iteration of the loop that makes a call. */
  lemma CollectFromUnfold(m: int, batches: nat, provider: ImagesProvider, acc: seq<ImageRecord>,
                          requests: seq<nat>, starts: seq<nat>, size: nat)
    requires |starts| < batches && |acc| < m && size == Min(BatchSize, m - |acc|)
    ensures var o := provider(|starts|, size);
      CollectFrom(m, batches, provider, acc, requests, starts)
      == if Continues(o, size, acc)
         then CollectFrom(m, batches, provider, acc + Contribution(o, acc), requests + [size], starts + [|acc|])
         else Trace(acc + Contribution(o, acc), requests + [size], starts + [|acc|], AbortOf(o))
  {
  }

  /** The whole loop for the quota `maxImages`. */
  function Collect(maxImages: Numeric, provider: ImagesProvider): Trace {
    match maxImages
    case NaN => Trace([], [], [], None)
    case Num(m) => CollectFrom(m, BatchCount(maxImages), provider, [], [], [])
  }

  /** The body of one iteration after its images() call: the records it adds, whether the
      loop goes on, and the TypeError raised when the thrown value was null or undefined. */
  method TakeBatch(o: BatchOutcome, size: nat, collected: seq<ImageRecord>)
    returns (added: seq<ImageRecord>, goOn: bool, abort: Option<string>)
    ensures added == Contribution(o, collected)
    ensures goOn <==> Continues(o, size, collected)
    ensures abort == (if goOn then None else AbortOf(o))
  {
    added, goOn, abort := [], false, None;
    match o {
      case Threw(e) =>
        match ReadMessage(e) {
          case Raises(typeError) =>
            abort := Some(typeError);
          case Text(_) =>
            goOn := true;
        }
      case Missing =>
      case Returned(batch) =>
        if |batch| == 0 {
          return;
        }
        added := Survivors(batch, collected);
        if |added| == 0 {
          return;
        }
        goOn := |batch| >= size;
    }
  }

  /** The loop of `handleGetImagesForPage`: `images` is `allImages`, `requests` the `limit`
      of each images() call in order, `failure` the TypeError that escapes the inner catch
      when a call throws null or undefined. */
  method CollectImages(maxImages: Numeric, provider: ImagesProvider)
    returns (images: seq<ImageRecord>, requests: seq<nat>, failure: Option<string>)
    ensures images == Collect(maxImages, provider).images
    ensures requests == Collect(maxImages, provider).requests
    ensures failure == Collect(maxImages, provider).failure
    ensures |requests| <= BatchCount(maxImages)
    ensures forall k :: 0 <= k < |requests| ==> 1 <= requests[k] <= BatchSize
  {
    var batches := BatchCount(maxImages);
    images, requests, failure := [], [], None;
    ghost var starts: seq<nat> := [];
    ghost var result := Collect(maxImages, provider);
    if batches == 0 {
      assert result == Trace([], [], [], None);
      return;
    }
    var m := maxImages.n;
    var i := 0;
    while i < batches
      invariant 0 <= i <= batches
      invariant |starts| == |requests| == i
      invariant forall k :: 0 <= k < i ==> 1 <= requests[k] <= BatchSize
      invariant failure == None
      invariant result == CollectFrom(m, batches, provider, images, requests, starts)
    {
      if |images| >= m {
        break;
      }
      var size := Min(BatchSize, m - |images|);
      CollectFromUnfold(m, batches, provider, images, requests, starts, size);
      var added, goOn, abort := TakeBatch(provider(i, size), size, images);
      requests := requests + [size];
      starts := starts + [|images|];
      images := images + added;
      if !goOn {
        failure := abort;
        assert result == Trace(images, requests, starts, failure);
        break;
      }
      i := i + 1;
    }
  }

  // ---------------------------------------------------------------------------
  // Properties of a run

  /** No run makes a call when the quota is NaN or not positive. */
  lemma NoCallsWithoutQuota(maxImages: Numeric, provider: ImagesProvider)
    requires maxImages.NaN? || maxImages.n <= 0
    ensures Collect(maxImages, provider) == Trace([], [], [], None)
  {
  }

  /** Every call asks for what is still missing from the quota, capped at 50, when the
      collection had `starts[k]` records. */
  ghost predicate AsksForRemainder(m: int, images: seq<ImageRecord>, requests: seq<nat>, starts: seq<nat>) {
    && |requests| == |starts|
    && forall k :: 0 <= k < |starts| ==>
         starts[k] < m && starts[k] <= |images| && requests[k] == Min(BatchSize, m - starts[k])
  }

  lemma {:induction false} CollectFromAsksForRemainder(m: int, batches: nat, provider: ImagesProvider,
      acc: seq<ImageRecord>, requests: seq<nat>, starts: seq<nat>)
    requires AsksForRemainder(m, acc, requests, starts)
    ensures var t := CollectFrom(m, batches, provider, acc, requests, starts);
      AsksForRemainder(m, t.images, t.requests, t.starts) && |acc| <= |t.images| && t.images[..|acc|] == acc
    decreases batches - |starts|
  {
    if |starts| < batches && |acc| < m {
      var size := Min(BatchSize, m - |acc|);
      var o := provider(|starts|, size);
      var acc' := acc + Contribution(o, acc);
      assert AsksForRemainder(m, acc', requests + [size], starts + [|acc|]);
      if Continues(o, size, acc) {
        CollectFromAsksForRemainder(m, batches, provider, acc', requests + [size], starts + [|acc|]);
        var t := CollectFrom(m, batches, provider, acc', requests + [size], starts + [|acc|]);
        assert t.images[..|acc|] == t.images[..|acc'|][..|acc|];
      }
    }
  }

  /** The limit of every images() call is the number of records still missing when it was
      made, capped at 50; the collection only grows. */
  lemma RequestsAskForRemainder(maxImages: Numeric, provider: ImagesProvider)
    requires maxImages.Num?
    ensures var t := Collect(maxImages, provider);
      && |t.requests| == |t.starts|
      && forall k :: 0 <= k < |t.starts| ==>
           t.starts[k] < maxImages.n && t.starts[k] <= |t.images|
           && t.requests[k] == Min(BatchSize, maxImages.n - t.starts[k])
  {
    CollectFromAsksForRemainder(maxImages.n, BatchCount(maxImages), provider, [], [], []);
  }

  /** Where the records of call k end: where call k + 1 began, or the end of the collection
      for the last call. */
  function NextStart(images: seq<ImageRecord>, starts: seq<nat>, k: nat): nat
    requires k < |starts|
  {
    if k + 1 < |starts| then starts[k + 1] else |images|
  }

  /** Call k began at `starts[k]`, the first at 0, and its records end no earlier than they
      begin and within the collection. */
  ghost predicate Laid(images: seq<ImageRecord>, requests: seq<nat>, starts: seq<nat>) {
    && |requests| == |starts|
    && (starts == [] ==> images == [])
    && (starts != [] ==> starts[0] == 0)
    && forall k :: 0 <= k < |starts| ==> starts[k] <= NextStart(images, starts, k) <= |images|
  }

  /** Call k added exactly the survivors of its batch against the records collected before it. */
  ghost predicate Contributed(provider: ImagesProvider, images: seq<ImageRecord>, requests: seq<nat>, starts: seq<nat>)
    requires Laid(images, requests, starts)
  {
    forall k :: 0 <= k < |starts| ==>
      images[starts[k]..NextStart(images, starts, k)] == Contribution(provider(k, requests[k]), images[..starts[k]])
  }

  /** The first n calls let the loop go on. */
  ghost predicate ContinuedBefore(provider: ImagesProvider, images: seq<ImageRecord>, requests: seq<nat>,
                                  starts: seq<nat>, n: nat)
    requires Laid(images, requests, starts) && n <= |starts|
  {
    forall k :: 0 <= k < n ==> Continues(provider(k, requests[k]), requests[k], images[..starts[k]])
  }

  /** The collection is the calls' contributions laid end to end, and every call but the
      last let the loop go on. */
  ghost predicate Explained(provider: ImagesProvider, images: seq<ImageRecord>, requests: seq<nat>, starts: seq<nat>) {
    && Laid(images, requests, starts)
    && Contributed(provider, images, requests, starts)
    && ContinuedBefore(provider, images, requests, starts, if starts == [] then 0 else |starts| - 1)
  }

  /** Every call so far let the loop go on. */
  ghost predicate LastContinued(provider: ImagesProvider, images: seq<ImageRecord>, requests: seq<nat>, starts: seq<nat>)
    requires Explained(provider, images, requests, starts)
  {
    ContinuedBefore(provider, images, requests, starts, |starts|)
  }

  /** Appending the records of one more call, begun at the end of the collection. */
  lemma LaidStep(acc: seq<ImageRecord>, requests: seq<nat>, starts: seq<nat>, size: nat, c: seq<ImageRecord>)
    requires Laid(acc, requests, starts)
    ensures Laid(acc + c, requests + [size], starts + [|acc|])
    ensures forall k :: 0 <= k < |starts| ==> NextStart(acc + c, starts + [|acc|], k) == NextStart(acc, starts, k)
  {
    var acc', starts' := acc + c, starts + [|acc|];
    forall k | 0 <= k < |starts|
      ensures NextStart(acc', starts', k) == NextStart(acc, starts, k)
    {
      if k + 1 < |starts| {
        assert starts'[k + 1] == starts[k + 1];
      }
    }
    assert NextStart(acc', starts', |starts|) == |acc'|;
  }

  /** Records collected before one more call keep their slices and their prefixes. */
  lemma ExtensionKeeps(acc: seq<ImageRecord>, c: seq<ImageRecord>, a: nat, b: nat)
    requires a <= b <= |acc|
    ensures (acc + c)[a..b] == acc[a..b] && (acc + c)[..a] == acc[..a]
  {
  }

  /** A call made before one more call keeps its slice and what preceded it. */
  lemma ContributedKept(provider: ImagesProvider, acc: seq<ImageRecord>, requests: seq<nat>, starts: seq<nat>,
                        size: nat, c: seq<ImageRecord>, k: nat)
    requires Laid(acc, requests, starts) && Contributed(provider, acc, requests, starts) && k < |starts|
    ensures NextStart(acc + c, starts + [|acc|], k) == NextStart(acc, starts, k)
    ensures (acc + c)[starts[k]..NextStart(acc, starts, k)] == Contribution(provider(k, requests[k]), (acc + c)[..starts[k]])
  {
    if k + 1 < |starts| {
      assert (starts + [|acc|])[k + 1] == starts[k + 1];
    }
    ExtensionKeeps(acc, c, starts[k], NextStart(acc, starts, k));
  }

  /** The call just made added exactly its contribution, right after what preceded it. */
  lemma ContributedNew(provider: ImagesProvider, acc: seq<ImageRecord>, requests: seq<nat>, starts: seq<nat>,
                       size: nat, c: seq<ImageRecord>)
    requires |requests| == |starts| && c == Contribution(provider(|starts|, size), acc)
    ensures var acc', starts' := acc + c, starts + [|acc|];
      NextStart(acc', starts', |starts|) == |acc'|
      && acc'[starts'[|starts|]..NextStart(acc', starts', |starts|)]
         == Contribution(provider(|starts|, (requests + [size])[|starts|]), acc'[..starts'[|starts|]])
  {
    var acc', starts' := acc + c, starts + [|acc|];
    assert starts'[|starts|] == |acc| && (requests + [size])[|starts|] == size;
    assert acc'[|acc|..|acc'|] == c && acc'[..|acc|] == acc;
  }

  lemma ContributedStep(provider: ImagesProvider, acc: seq<ImageRecord>, requests: seq<nat>, starts: seq<nat>, size: nat)
    requires Laid(acc, requests, starts) && Contributed(provider, acc, requests, starts)
    ensures var acc' := acc + Contribution(provider(|starts|, size), acc);
      Laid(acc', requests + [size], starts + [|acc|])
      && Contributed(provider, acc', requests + [size], starts + [|acc|])
  {
    var c := Contribution(provider(|starts|, size), acc);
    var acc', requests', starts' := acc + c, requests + [size], starts + [|acc|];
    LaidStep(acc, requests, starts, size, c);
    forall k | 0 <= k < |starts'|
      ensures acc'[starts'[k]..NextStart(acc', starts', k)] == Contribution(provider(k, requests'[k]), acc'[..starts'[k]])
    {
      if k < |starts| {
        assert starts'[k] == starts[k] && requests'[k] == requests[k];
        ContributedKept(provider, acc, requests, starts, size, c, k);
      } else {
        assert k == |starts|;
        ContributedNew(provider, acc, requests, starts, size, c);
      }
    }
  }

  lemma ContinuedStep(provider: ImagesProvider, acc: seq<ImageRecord>, requests: seq<nat>, starts: seq<nat>,
                      size: nat, c: seq<ImageRecord>)
    requires Laid(acc, requests, starts) && ContinuedBefore(provider, acc, requests, starts, |starts|)
    ensures Laid(acc + c, requests + [size], starts + [|acc|])
    ensures ContinuedBefore(provider, acc + c, requests + [size], starts + [|acc|], |starts|)
  {
    var acc', requests', starts' := acc + c, requests + [size], starts + [|acc|];
    LaidStep(acc, requests, starts, size, c);
    forall k | 0 <= k < |starts|
      ensures Continues(provider(k, requests'[k]), requests'[k], acc'[..starts'[k]])
    {
      assert starts'[k] == starts[k] && requests'[k] == requests[k];
      ExtensionKeeps(acc, c, starts[k], starts[k]);
    }
  }

  /** A call that let the loop go on, followed by one more call, keeps the run explained. */
  lemma ExplainedStep(provider: ImagesProvider, acc: seq<ImageRecord>, requests: seq<nat>, starts: seq<nat>, size: nat)
    requires Explained(provider, acc, requests, starts) && LastContinued(provider, acc, requests, starts)
    ensures var acc' := acc + Contribution(provider(|starts|, size), acc);
      && acc'[..|acc|] == acc
      && Explained(provider, acc', requests + [size], starts + [|acc|])
  {
    var c := Contribution(provider(|starts|, size), acc);
    ContributedStep(provider, acc, requests, starts, size);
    ContinuedStep(provider, acc, requests, starts, size, c);
    assert (acc + c)[..|acc|] == acc;
  }

  lemma {:induction false} CollectFromExplained(m: int, batches: nat, provider: ImagesProvider,
      acc: seq<ImageRecord>, requests: seq<nat>, starts: seq<nat>)
    requires Explained(provider, acc, requests, starts) && LastContinued(provider, acc, requests, starts)
    ensures var t := CollectFrom(m, batches, provider, acc, requests, starts);
      && Explained(provider, t.images, t.requests, t.starts)
      && (|t.starts| >= batches || |t.images| >= m || !LastContinued(provider, t.images, t.requests, t.starts))
    decreases batches - |starts|
  {
    if |starts| < batches && |acc| < m {
      var size := Min(BatchSize, m - |acc|);
      var o := provider(|starts|, size);
      var acc' := acc + Contribution(o, acc);
      ExplainedStep(provider, acc, requests, starts, size);
      CollectFromUnfold(m, batches, provider, acc, requests, starts, size);
      var requests', starts' := requests + [size], starts + [|acc|];
      assert requests'[|starts|] == size && starts'[|starts|] == |acc| && acc'[..|acc|] == acc;
      if Continues(o, size, acc) {
        CollectFromExplained(m, batches, provider, acc', requests', starts');
      } else {
        assert !Continues(provider(|starts|, requests'[|starts|]), requests'[|starts|], acc'[..starts'[|starts|]]);
      }
    }
  }

  /** A whole run, call by call. The collection only grows: call k began at `starts[k]`,
      calls began in order from 0, and the records call k added are exactly the survivors
      of its batch against what was collected before it (none for a call that threw or
      returned nothing). Every call but the last let the loop go on, and a run ends at its
      bound, at the quota, or after a call that did not let it go on; so a call that throws
      an ordinary error is skipped and is followed by the next call while the bound and the
      quota allow. */
  lemma RunExplained(maxImages: Numeric, provider: ImagesProvider)
    ensures var t := Collect(maxImages, provider);
      && |t.requests| == |t.starts|
      && (t.starts == [] ==> t.images == [])
      && (t.starts != [] ==> t.starts[0] == 0)
      && (forall k :: 0 <= k < |t.starts| ==> t.starts[k] <= NextStart(t.images, t.starts, k) <= |t.images|)
      && (forall k :: 0 <= k < |t.starts| ==>
            t.images[t.starts[k]..NextStart(t.images, t.starts, k)]
              == Contribution(provider(k, t.requests[k]), t.images[..t.starts[k]]))
      && (forall k :: 0 <= k < |t.starts| - 1 ==>
            Continues(provider(k, t.requests[k]), t.requests[k], t.images[..t.starts[k]]))
      && (maxImages.Num? && maxImages.n > 0 ==> t.starts != [])
      && (maxImages.Num? && t.starts != [] ==>
            var k := |t.starts| - 1;
            Continues(provider(k, t.requests[k]), t.requests[k], t.images[..t.starts[k]])
            ==> |t.starts| >= BatchCount(maxImages) || |t.images| >= maxImages.n)
  {
    if maxImages.Num? {
      var m := maxImages.n;
      CollectFromExplained(m, BatchCount(maxImages), provider, [], [], []);
      if m > 0 {
        BatchCountIsCeiling(m);
        CollectFromUnfold(m, BatchCount(maxImages), provider, [], [], [], Min(BatchSize, m));
        var o := provider(0, Min(BatchSize, m));
        CollectFromKeepsCalls(m, BatchCount(maxImages), provider, Contribution(o, []), [Min(BatchSize, m)], [0]);
      }
    }
  }

  /** A run never forgets a call already made. */
  lemma {:induction false} CollectFromKeepsCalls(m: int, batches: nat, provider: ImagesProvider,
      acc: seq<ImageRecord>, requests: seq<nat>, starts: seq<nat>)
    ensures |CollectFrom(m, batches, provider, acc, requests, starts).starts| >= |starts|
    decreases batches - |starts|
  {
    if |starts| < batches && |acc| < m {
      var size := Min(BatchSize, m - |acc|);
      var o := provider(|starts|, size);
      if Continues(o, size, acc) {
        CollectFromKeepsCalls(m, batches, provider, acc + Contribution(o, acc), requests + [size], starts + [|acc|]);
      }
    }
  }

  /** Every collected url ends in an image extension. */
  lemma {:induction false} CollectFromKeepsImages(m: int, batches: nat, provider: ImagesProvider,
      acc: seq<ImageRecord>, requests: seq<nat>, starts: seq<nat>)
    requires forall r :: r in acc ==> HasImageExtension(r.url)
    ensures forall r :: r in CollectFrom(m, batches, provider, acc, requests, starts).images ==> HasImageExtension(r.url)
    decreases batches - |starts|
  {
    if |starts| < batches && |acc| < m {
      var size := Min(BatchSize, m - |acc|);
      var o := provider(|starts|, size);
      var acc' := acc + Contribution(o, acc);
      assert forall r :: r in acc' ==> HasImageExtension(r.url);
      if Continues(o, size, acc) {
        CollectFromKeepsImages(m, batches, provider, acc', requests + [size], starts + [|acc|]);
      }
    }
  }

  lemma OnlyImagesCollected(maxImages: Numeric, provider: ImagesProvider)
    ensures forall r :: r in Collect(maxImages, provider).images ==> HasImageExtension(r.url)
  {
    if maxImages.Num? {
      CollectFromKeepsImages(maxImages.n, BatchCount(maxImages), provider, [], [], []);
    }
  }

  /** No two records share a url. */
  predicate UrlsDistinct(s: seq<ImageRecord>) {
    forall i, j :: 0 <= i < j < |s| ==> s[i].url != s[j].url
  }

  /** Every batch the provider returns is free of repeated urls. */
  ghost predicate BatchesDistinct(provider: ImagesProvider) {
    forall k, n :: provider(k, n).Returned? ==> UrlsDistinct(provider(k, n).records)
  }

  lemma {:induction false} SurvivorsDistinct(batch: seq<ImageRecord>, collected: seq<ImageRecord>)
    requires UrlsDistinct(batch)
    ensures UrlsDistinct(Survivors(batch, collected))
    decreases |batch|
  {
    if batch != [] {
      var rest := Survivors(batch[1..], collected);
      SurvivorsDistinct(batch[1..], collected);
      forall r | r in rest ensures r.url != batch[0].url {
        var j :| 0 <= j < |batch[1..]| && batch[1..][j] == r;
        assert batch[j + 1] == r;
      }
    }
  }

  lemma AppendDistinct(acc: seq<ImageRecord>, added: seq<ImageRecord>)
    requires UrlsDistinct(acc) && UrlsDistinct(added)
    requires forall r :: r in added ==> !UrlTaken(acc, r.url)
    ensures UrlsDistinct(acc + added)
  {
    var s := acc + added;
    forall i, j | 0 <= i < j < |s| ensures s[i].url != s[j].url {
      if j >= |acc| && i < |acc| {
        assert added[j - |acc|] in added;
      }
    }
  }

  lemma {:induction false} CollectFromDistinct(m: int, batches: nat, provider: ImagesProvider,
      acc: seq<ImageRecord>, requests: seq<nat>, starts: seq<nat>)
    requires BatchesDistinct(provider) && UrlsDistinct(acc)
    ensures UrlsDistinct(CollectFrom(m, batches, provider, acc, requests, starts).images)
    decreases batches - |starts|
  {
    if |starts| < batches && |acc| < m {
      var size := Min(BatchSize, m - |acc|);
      var o := provider(|starts|, size);
      var acc' := acc + Contribution(o, acc);
      if o.Returned? {
        SurvivorsDistinct(o.records, acc);
        AppendDistinct(acc, Survivors(o.records, acc));
      } else {
        assert acc' == acc;
      }
      if Continues(o, size, acc) {
        CollectFromDistinct(m, batches, provider, acc', requests + [size], starts + [|acc|]);
      }
    }
  }

  /** Urls repeat only within one batch: when no batch repeats a url, the collection holds
      every url at most once. */
  lemma NoDuplicatesAcrossBatches(maxImages: Numeric, provider: ImagesProvider)
    requires BatchesDistinct(provider)
    ensures UrlsDistinct(Collect(maxImages, provider).images)
  {
    if maxImages.Num? {
      CollectFromDistinct(maxImages.n, BatchCount(maxImages), provider, [], [], []);
    }
  }

  /** Two copies of a record that passes the filter, returned in one batch, are both
      collected, whatever the quota of at least two. */
  lemma SameBatchDuplicateSurvives(r: ImageRecord, m: int)
    requires Keep([], r) && m > 0
    ensures Collect(Num(m), (k: nat, n: nat) => Returned([r, r]))
      == Trace([r, r], [Min(BatchSize, m)], [0], None)
  {
    var provider := (k: nat, n: nat) => Returned([r, r]);
    var size := Min(BatchSize, m);
    assert Survivors([r, r], []) == [r, r] by {
      assert [r, r][1..] == [r];
      assert Survivors([r], []) == [r];
    }
    BatchCountIsCeiling(m);
    CollectFromUnfold(m, BatchCount(Num(m)), provider, [], [], [], size);
  }

  /** For instance, a batch holding "a.png" twice is collected whole. */
  lemma SameBatchDuplicateExample()
    ensures var r := ImageRecord("a.png", "A");
      Collect(Num(50), (k: nat, n: nat) => Returned([r, r])) == Trace([r, r], [50], [0], None)
  {
    var r := ImageRecord("a.png", "A");
    assert Keep([], r) by {
      var lower := ToLower("a.png");
      assert forall i | 0 <= i < 5 :: lower[i] == "a.png"[i];
      assert lower[|lower| - 4..] == ".png";
    }
    SameBatchDuplicateSurvives(r, 50);
  }

  /** The provider never returns more records than a call asks for. */
  ghost predicate NeverOversupplies(provider: ImagesProvider) {
    forall k, n :: provider(k, n).Returned? ==> |provider(k, n).records| <= n
  }

  lemma {:induction false} CollectFromWithinQuota(m: int, batches: nat, provider: ImagesProvider,
      acc: seq<ImageRecord>, requests: seq<nat>, starts: seq<nat>)
    requires NeverOversupplies(provider) && |acc| <= m
    ensures |CollectFrom(m, batches, provider, acc, requests, starts).images| <= m
    decreases batches - |starts|
  {
    if |starts| < batches && |acc| < m {
      var size := Min(BatchSize, m - |acc|);
      var o := provider(|starts|, size);
      var acc' := acc + Contribution(o, acc);
      assert |acc'| <= m;
      if Continues(o, size, acc) {
        CollectFromWithinQuota(m, batches, provider, acc', requests + [size], starts + [|acc|]);
      }
    }
  }

  /** A provider that honours the limit never makes the collection exceed the quota. */
  lemma WithinQuota(maxImages: Numeric, provider: ImagesProvider)
    requires NeverOversupplies(provider)
    ensures maxImages.Num? && maxImages.n >= 0 ==> |Collect(maxImages, provider).images| <= maxImages.n
  {
    if maxImages.Num? && maxImages.n >= 0 {
      CollectFromWithinQuota(maxImages.n, BatchCount(maxImages), provider, [], [], []);
    }
  }

  /** The call threw null or undefined. */
  predicate ThrewNullish(o: BatchOutcome) {
    o.Threw? && !o.e.Thrown?
  }

  /** The outcome of the last images() call of a run. */
  function LastCall(provider: ImagesProvider, requests: seq<nat>): BatchOutcome
    requires requests != []
  {
    provider(|requests| - 1, requests[|requests| - 1])
  }

  /** The run's failure is the TypeError of its last call exactly when that call threw
      null or undefined. */
  predicate AbortExplained(provider: ImagesProvider, requests: seq<nat>, failure: Option<string>) {
    if requests != [] && ThrewNullish(LastCall(provider, requests))
    then failure == Some(ReadMessage(LastCall(provider, requests).e).typeError)
    else failure == None
  }

  /** No call before the last one threw null or undefined. */
  predicate OnlyLastMayAbort(provider: ImagesProvider, requests: seq<nat>) {
    forall k :: 0 <= k < |requests| - 1 ==> !ThrewNullish(provider(k, requests[k]))
  }

  lemma {:induction false} CollectFromOnlyLastMayAbort(m: int, batches: nat, provider: ImagesProvider,
      acc: seq<ImageRecord>, requests: seq<nat>, starts: seq<nat>)
    requires |requests| == |starts|
    requires forall k :: 0 <= k < |requests| ==> !ThrewNullish(provider(k, requests[k]))
    ensures OnlyLastMayAbort(provider, CollectFrom(m, batches, provider, acc, requests, starts).requests)
    decreases batches - |starts|
  {
    if |starts| < batches && |acc| < m {
      var size := Min(BatchSize, m - |acc|);
      var o := provider(|starts|, size);
      var requests' := requests + [size];
      assert forall k :: 0 <= k < |requests| ==> requests'[k] == requests[k];
      CollectFromUnfold(m, batches, provider, acc, requests, starts, size);
      if Continues(o, size, acc) {
        assert !ThrewNullish(o);
        CollectFromOnlyLastMayAbort(m, batches, provider, acc + Contribution(o, acc), requests', starts + [|acc|]);
      }
    }
  }

  lemma {:induction false} CollectFromAborts(m: int, batches: nat, provider: ImagesProvider,
      acc: seq<ImageRecord>, requests: seq<nat>, starts: seq<nat>)
    requires |requests| == |starts|
    requires AbortExplained(provider, requests, None)
    ensures var t := CollectFrom(m, batches, provider, acc, requests, starts);
      AbortExplained(provider, t.requests, t.failure)
    decreases batches - |starts|
  {
    if |starts| < batches && |acc| < m {
      var size := Min(BatchSize, m - |acc|);
      var o := provider(|starts|, size);
      var requests' := requests + [size];
      assert LastCall(provider, requests') == o;
      CollectFromUnfold(m, batches, provider, acc, requests, starts, size);
      if Continues(o, size, acc) {
        CollectFromAborts(m, batches, provider, acc + Contribution(o, acc), requests', starts + [|acc|]);
      }
    }
  }

  /** A run ends with a TypeError exactly when its last images() call threw null or
      undefined, and the error is the one reading `.message` of that value raises; no
      earlier call of the run threw null or undefined. */
  lemma AbortsOnlyOnNullishThrow(maxImages: Numeric, provider: ImagesProvider)
    ensures var t := Collect(maxImages, provider);
      && (t.failure.Some? <==> t.requests != [] && ThrewNullish(LastCall(provider, t.requests)))
      && (t.failure.Some? ==> t.failure == Some(ReadMessage(LastCall(provider, t.requests).e).typeError))
      && forall k :: 0 <= k < |t.requests| - 1 ==> !ThrewNullish(provider(k, t.requests[k]))
  {
    if maxImages.Num? {
      CollectFromAborts(maxImages.n, BatchCount(maxImages), provider, [], [], []);
      CollectFromOnlyLastMayAbort(maxImages.n, BatchCount(maxImages), provider, [], [], []);
    }
  }

  /** A first call that throws null or undefined aborts the run with nothing collected. */
  lemma FirstCallAborts(m: int, provider: ImagesProvider)
    requires m > 0 && ThrewNullish(provider(0, Min(BatchSize, m)))
    ensures Collect(Num(m), provider)
      == Trace([], [Min(BatchSize, m)], [0], Some(ReadMessage(provider(0, Min(BatchSize, m)).e).typeError))
  {
    BatchCountIsCeiling(m);
    CollectFromUnfold(m, BatchCount(Num(m)), provider, [], [], [], Min(BatchSize, m));
  }
}
