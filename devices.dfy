/**
 * Device enumeration in clwrap.h: getDeviceIDs fills a caller's array with
 * device handles gathered platform by platform, getNumberOfDevices adds up
 * the device counts of all platforms. The OpenCL runtime is given as data:
 * the status of clGetPlatformIDs and, per platform, its GPU devices and all
 * its devices. clGetDeviceIDs answers as section 4.2 of the OpenCL 1.2
 * specification says: it writes as many matching handles as the room it is
 * offered allows, reports the total number of matching devices whatever the
 * room, and fails with CL_DEVICE_NOT_FOUND when there is none.
 */
module Devices {
  import opened Outcomes
  import opened OpenCl

  /** `cl_platform_id platforms[8]`: how many platform handles the wrapper keeps. */
  const PLATFORM_SLOTS: nat := 8

  type DeviceId = nat

  datatype Platform = Platform(gpus: seq<DeviceId>, all: seq<DeviceId>)

  /** What the runtime answers: clGetPlatformIDs' status and the platforms it
      reports (their number is the count it returns, which may exceed 8). */
  datatype Runtime = Runtime(platformStatus: int, platforms: seq<Platform>)

  /** One clGetDeviceIDs call of getDeviceIDs: platform index, device type,
      room offered (num_entries) and where it writes (the offset into out). */
  datatype DeviceQuery = DeviceQuery(platform: nat, deviceType: nat, room: int, offset: nat)

  /** clGetDeviceIDs' status and the count it reports through its last argument. */
  datatype DeviceReply = DeviceReply(status: int, count: nat)

  function DeviceType(onlyGPU: bool): nat {
    if onlyGPU then CL_DEVICE_TYPE_GPU else CL_DEVICE_TYPE_ALL
  }

  function Matching(p: Platform, onlyGPU: bool): seq<DeviceId> {
    if onlyGPU then p.gpus else p.all
  }

  /** The matching devices of every platform, in platform order. */
  function Lists(ps: seq<Platform>, onlyGPU: bool): (ls: seq<seq<DeviceId>>)
    ensures |ls| == |ps|
  {
    if ps == [] then [] else [Matching(ps[0], onlyGPU)] + Lists(ps[1..], onlyGPU)
  }

  /** The number of devices in each list: what clGetDeviceIDs reports. */
  function Counts(ls: seq<seq<DeviceId>>): (cs: seq<nat>)
    ensures |cs| == |ls|
  {
    if ls == [] then [] else [|ls[0]|] + Counts(ls[1..])
  }

  lemma {:induction false} ListsIndex(ps: seq<Platform>, onlyGPU: bool, i: nat)
    requires i < |ps|
    ensures Lists(ps, onlyGPU)[i] == Matching(ps[i], onlyGPU)
  {
    if i > 0 {
      ListsIndex(ps[1..], onlyGPU, i - 1);
    }
  }

  lemma {:induction false} CountsIndex(ls: seq<seq<DeviceId>>, i: nat)
    requires i < |ls|
    ensures Counts(ls)[i] == |ls[i]|
  {
    if i > 0 {
      CountsIndex(ls[1..], i - 1);
    }
  }

  /** What the first i platforms report together. */
  function Prefix(counts: seq<nat>, i: nat): nat
    requires i <= |counts|
  {
    if i == 0 then 0 else Prefix(counts, i - 1) + counts[i - 1]
  }

  function Sum(counts: seq<nat>): nat {
    Prefix(counts, |counts|)
  }

  /** The handles of the first i platforms, in platform order. */
  function Gathered(ls: seq<seq<DeviceId>>, i: nat): seq<DeviceId>
    requires i <= |ls|
  {
    if i == 0 then [] else Gathered(ls, i - 1) + ls[i - 1]
  }

  /** What clGetDeviceIDs reports for a platform whose matching devices are ids. */
  function DeviceCount(ids: seq<DeviceId>): (reply: DeviceReply)
    ensures reply.count == |ids|
    ensures reply.status == CL_SUCCESS <==> ids != []
  {
    DeviceReply(if ids == [] then CL_DEVICE_NOT_FOUND else CL_SUCCESS, |ids|)
  }

  /** a with the elements from offset on replaced by w. */
  function Overwrite(a: seq<DeviceId>, offset: nat, w: seq<DeviceId>): (r: seq<DeviceId>)
    requires offset + |w| <= |a|
    ensures |r| == |a|
    ensures r[..offset] == a[..offset] && r[offset + |w|..] == a[offset + |w|..]
    ensures r[offset..offset + |w|] == w
  {
    a[..offset] + w + a[offset + |w|..]
  }

  /** clGetDeviceIDs with a destination: writes the first min(room, |ids|)
      handles at out[offset..] and nothing else. The runtime's contract is
      that the destination holds room entries and that room is not zero. */
  method QueryDevices(ids: seq<DeviceId>, room: nat, out: array<DeviceId>, offset: nat)
      returns (reply: DeviceReply)
    requires 0 < room && offset + room <= out.Length
    modifies out
    ensures reply == DeviceCount(ids)
    ensures out[..] == Overwrite(old(out[..]), offset, ids[..Min(room, |ids|)])
  {
    var w := ids[..Min(room, |ids|)];
    forall k | 0 <= k < |w| {
      out[offset + k] := w[k];
    }
    assert out[..] == Overwrite(old(out[..]), offset, w);
    reply := DeviceCount(ids);
  }

  // ---------------------------------------------------------------------
  // Specification of the two loops

  /** How many platforms getDeviceIDs queries: it stops at the first one
      before which the reported counts already reach size, or after all. */
  function Visited(counts: seq<nat>, size: nat): (k: nat)
    ensures k <= |counts|
    ensures k == |counts| || Prefix(counts, k) >= size
  {
    VisitedFrom(counts, size, 0)
  }

  function VisitedFrom(counts: seq<nat>, size: nat, i: nat): (k: nat)
    requires i <= |counts|
    ensures i <= k <= |counts|
    ensures k == |counts| || Prefix(counts, k) >= size
    decreases |counts| - i
  {
    if i == |counts| || Prefix(counts, i) >= size then i else VisitedFrom(counts, size, i + 1)
  }

  /** How a loop over the first k platforms ends: CHECK aborts at the first of
      the eight kept platforms without a matching device; a loop that gets to
      index 8 reads past `platforms[8]`; otherwise it returns the counts' sum. */
  function ScanOutcome(counts: seq<nat>, k: nat): Result<nat>
    requires k <= |counts|
  {
    if exists j :: 0 <= j < k && j < PLATFORM_SLOTS && counts[j] == 0 then
      Failure(CheckFailed(CL_DEVICE_NOT_FOUND))
    else if k > PLATFORM_SLOTS then Failure(OutOfBounds)
    else Success(Prefix(counts, k))
  }

  /** getDeviceIDs' result once the platforms are known. */
  function ListOutcome(counts: seq<nat>, size: nat): Result<nat> {
    ScanOutcome(counts, Visited(counts, size))
  }

  /** getNumberOfDevices' result once the platforms are known. */
  function CountOutcome(counts: seq<nat>): Result<nat> {
    ScanOutcome(counts, |counts|)
  }

  /** The queries getDeviceIDs makes of its first k platforms: the i-th is
      offered size - n slots at out + n, n being what the earlier ones reported. */
  function Offers(counts: seq<nat>, size: nat, deviceType: nat, k: nat): (qs: seq<DeviceQuery>)
    requires k <= |counts|
    ensures |qs| == k
  {
    if k == 0 then []
    else Offers(counts, size, deviceType, k - 1)
         + [DeviceQuery(k - 1, deviceType, size - Prefix(counts, k - 1), Prefix(counts, k - 1))]
  }

  /** The first handles of the first k platforms, as many as fit in size slots. */
  function Filled(ls: seq<seq<DeviceId>>, k: nat, size: nat): (w: seq<DeviceId>)
    requires k <= |ls|
    ensures |w| <= size
  {
    var g := Gathered(ls, k);
    g[..Min(size, |g|)]
  }

  /** The rest of getDeviceIDs' loop, from platform i with n handles reported. */
  function ListFrom(counts: seq<nat>, size: nat, i: nat, n: nat): Result<nat>
    requires i <= |counts|
    decreases |counts| - i
  {
    if i == |counts| || n >= size then Success(n)
    else if i >= PLATFORM_SLOTS then Failure(OutOfBounds)
    else if counts[i] == 0 then Failure(CheckFailed(CL_DEVICE_NOT_FOUND))
    else ListFrom(counts, size, i + 1, n + counts[i])
  }

  /** The rest of getNumberOfDevices' loop, from platform i with n devices counted. */
  function CountFrom(counts: seq<nat>, i: nat, n: nat): Result<nat>
    requires i <= |counts|
    decreases |counts| - i
  {
    if i == |counts| then Success(n)
    else if i >= PLATFORM_SLOTS then Failure(OutOfBounds)
    else if counts[i] == 0 then Failure(CheckFailed(CL_DEVICE_NOT_FOUND))
    else CountFrom(counts, i + 1, n + counts[i])
  }

  /** What getDeviceIDs leaves behind once the platforms are known: the
      result, the queries it made, and the array, which holds the first
      handles of the queried platforms, as many as fit, and is unchanged from
      size on. */
  ghost predicate Listing(lists: seq<seq<DeviceId>>, size: nat, deviceType: nat, before: seq<DeviceId>,
                          after: seq<DeviceId>, r: Result<nat>, queries: seq<DeviceQuery>)
    requires size <= |before|
  {
    var counts := Counts(lists);
    && r == ListOutcome(counts, size)
    && |queries| <= Visited(counts, size)
    && (r.Success? ==> |queries| == Visited(counts, size))
    && queries == Offers(counts, size, deviceType, |queries|)
    && after == Overwrite(before, 0, Filled(lists, |queries|, size))
    && after[size..] == before[size..]
  }

  /** The invariant of getDeviceIDs' loop after the first i platforms, with n
      handles reported and now the contents of the array. */
  ghost predicate Progress(lists: seq<seq<DeviceId>>, size: nat, deviceType: nat, before: seq<DeviceId>,
                           now: seq<DeviceId>, queries: seq<DeviceQuery>, i: nat, n: nat)
  {
    var counts := Counts(lists);
    && i <= |lists| && size <= |before|
    && i <= Visited(counts, size)
    && n == Prefix(counts, i) == |Gathered(lists, i)|
    && ListFrom(counts, size, i, n) == ListOutcome(counts, size)
    && queries == Offers(counts, size, deviceType, i)
    && now == Overwrite(before, 0, Filled(lists, i, size))
  }

  // ---------------------------------------------------------------------
  // The two loops

  method GetDeviceIDs(rt: Runtime, onlyGPU: bool, size: nat, out: array<DeviceId>)
      returns (r: Result<nat>, ghost queries: seq<DeviceQuery>)
    requires size <= out.Length
    modifies out
    ensures rt.platformStatus != CL_SUCCESS ==>
              r == Failure(CheckFailed(rt.platformStatus)) && queries == [] && out[..] == old(out[..])
    ensures rt.platformStatus == CL_SUCCESS ==>
              Listing(Lists(rt.platforms, onlyGPU), size, DeviceType(onlyGPU), old(out[..]), out[..], r, queries)
  {
    if rt.platformStatus != CL_SUCCESS {
      return Failure(CheckFailed(rt.platformStatus)), [];
    }
    r, queries := ListPlatforms(rt.platforms, onlyGPU, size, out);
  }

  /** getDeviceIDs' loop over the platforms clGetPlatformIDs reported. */
  method ListPlatforms(ps: seq<Platform>, onlyGPU: bool, size: nat, out: array<DeviceId>)
      returns (r: Result<nat>, ghost queries: seq<DeviceQuery>)
    requires size <= out.Length
    modifies out
    ensures Listing(Lists(ps, onlyGPU), size, DeviceType(onlyGPU), old(out[..]), out[..], r, queries)
  {
    ghost var lists := Lists(ps, onlyGPU);
    ghost var before := out[..];
    ghost var deviceType := DeviceType(onlyGPU);
    queries := [];
    ProgressStart(lists, size, deviceType, before);
    var nPlatforms := |ps|;
    var n: nat := 0;
    var i := 0;
    while i < nPlatforms && size > n
      invariant Progress(lists, size, deviceType, before, out[..], queries, i, n)
    {
      if i >= PLATFORM_SLOTS {
        ExitOutOfBounds(lists, size, deviceType, before, out[..], queries, i, n);
        return Failure(OutOfBounds), queries;
      }
      var room := size - n;
      var ids := Matching(ps[i], onlyGPU);
      ListsIndex(ps, onlyGPU, i);
      ghost var now := out[..];
      var reply := QueryDevices(ids, room, out, n);
      if reply.status != CL_SUCCESS {
        ExitNotFound(lists, size, deviceType, before, now, out[..], queries, i, n);
        queries := queries + [DeviceQuery(i, deviceType, room, n)];
        return Failure(CheckFailed(reply.status)), queries;
      }
      ProgressStep(lists, size, deviceType, before, now, out[..], queries, i, n);
      queries := queries + [DeviceQuery(i, deviceType, room, n)];
      n := n + reply.count;
      i := i + 1;
    }
    ExitDone(lists, size, deviceType, before, out[..], queries, i, n);
    r := Success(n);
  }

  lemma ProgressStart(lists: seq<seq<DeviceId>>, size: nat, deviceType: nat, before: seq<DeviceId>)
    requires size <= |before|
    ensures Progress(lists, size, deviceType, before, before, [], 0, 0)
  {
    ListFromRest(Counts(lists), size, 0);
    assert before == Overwrite(before, 0, []);
  }

  /** One more platform with devices keeps the loop invariant. */
  lemma ProgressStep(lists: seq<seq<DeviceId>>, size: nat, deviceType: nat, before: seq<DeviceId>,
                     now: seq<DeviceId>, after: seq<DeviceId>, queries: seq<DeviceQuery>, i: nat, n: nat)
    requires Progress(lists, size, deviceType, before, now, queries, i, n)
    requires i < |lists| && i < PLATFORM_SLOTS && n < size && lists[i] != []
    requires after == Overwrite(now, n, lists[i][..Min(size - n, |lists[i]|)])
    ensures Progress(lists, size, deviceType, before, after, queries + [DeviceQuery(i, deviceType, size - n, n)],
                     i + 1, n + |lists[i]|)
  {
    var counts := Counts(lists);
    CountsIndex(lists, i);
    VisitedNext(counts, size, i);
    ListStep(counts, size, i, n);
    FillInvariantStep(before, now, after, lists, i, size);
  }

  /** A ninth platform reached: the loop reads past `platforms[8]`. */
  lemma ExitOutOfBounds(lists: seq<seq<DeviceId>>, size: nat, deviceType: nat, before: seq<DeviceId>,
                        now: seq<DeviceId>, queries: seq<DeviceQuery>, i: nat, n: nat)
    requires Progress(lists, size, deviceType, before, now, queries, i, n)
    requires i < |lists| && n < size && i >= PLATFORM_SLOTS
    ensures Listing(lists, size, deviceType, before, now, Failure(OutOfBounds), queries)
  {
    FrameAbove(before, now, Filled(lists, i, size), size);
  }

  /** A platform without matching devices: CHECK aborts after the query. */
  lemma ExitNotFound(lists: seq<seq<DeviceId>>, size: nat, deviceType: nat, before: seq<DeviceId>,
                     now: seq<DeviceId>, after: seq<DeviceId>, queries: seq<DeviceQuery>, i: nat, n: nat)
    requires Progress(lists, size, deviceType, before, now, queries, i, n)
    requires i < |lists| && i < PLATFORM_SLOTS && n < size && lists[i] == []
    requires after == Overwrite(now, n, lists[i][..Min(size - n, |lists[i]|)])
    ensures Listing(lists, size, deviceType, before, after, Failure(CheckFailed(CL_DEVICE_NOT_FOUND)),
                    queries + [DeviceQuery(i, deviceType, size - n, n)])
  {
    var counts := Counts(lists);
    CountsIndex(lists, i);
    VisitedNext(counts, size, i);
    assert after == now;
    assert Gathered(lists, i + 1) == Gathered(lists, i);
    FrameAbove(before, after, Filled(lists, i + 1, size), size);
  }

  /** The loop ran out of platforms or of room. */
  lemma ExitDone(lists: seq<seq<DeviceId>>, size: nat, deviceType: nat, before: seq<DeviceId>,
                 now: seq<DeviceId>, queries: seq<DeviceQuery>, i: nat, n: nat)
    requires Progress(lists, size, deviceType, before, now, queries, i, n)
    requires i == |lists| || n >= size
    ensures Listing(lists, size, deviceType, before, now, Success(n), queries)
  {
    VisitedLeast(Counts(lists), size, i);
    FrameAbove(before, now, Filled(lists, i, size), size);
  }

  /** A platform reached below size is one getDeviceIDs queries. */
  lemma VisitedNext(counts: seq<nat>, size: nat, i: nat)
    requires i < |counts| && Prefix(counts, i) < size && i <= Visited(counts, size)
    ensures i < Visited(counts, size)
  {
  }

  /** One more platform with devices leaves the rest of the loop unchanged. */
  lemma ListStep(counts: seq<nat>, size: nat, i: nat, n: nat)
    requires i < |counts| && i < PLATFORM_SLOTS && n < size && counts[i] > 0
    ensures ListFrom(counts, size, i + 1, n + counts[i]) == ListFrom(counts, size, i, n)
  {
  }

  /** The array contents survive one platform's query as the invariant says. */
  lemma FillInvariantStep(before: seq<DeviceId>, mid: seq<DeviceId>, after: seq<DeviceId>,
                          lists: seq<seq<DeviceId>>, i: nat, size: nat)
    requires i < |lists| && |Gathered(lists, i)| < size <= |before|
    requires mid == Overwrite(before, 0, Filled(lists, i, size))
    requires after == Overwrite(mid, |Gathered(lists, i)|,
                                lists[i][..Min(size - |Gathered(lists, i)|, |lists[i]|)])
    ensures after == Overwrite(before, 0, Filled(lists, i + 1, size))
  {
    var g := Gathered(lists, i);
    assert Filled(lists, i, size) == g[..|g|];
    FillStep(before, g, lists[i], size);
  }

  /** One more platform's handles written after the first n keep the array
      holding a prefix of the gathered handles. */
  lemma FillStep(a: seq<DeviceId>, g: seq<DeviceId>, l: seq<DeviceId>, size: nat)
    requires |g| < size <= |a|
    ensures Overwrite(Overwrite(a, 0, g[..|g|]), |g|, l[..Min(size - |g|, |l|)])
         == Overwrite(a, 0, (g + l)[..Min(size, |g| + |l|)])
  {
    var w := l[..Min(size - |g|, |l|)];
    assert (g + l)[..Min(size, |g| + |l|)] == g + w;
  }

  /** Writing at most size handles from the front leaves everything from size on alone. */
  lemma FrameAbove(a: seq<DeviceId>, b: seq<DeviceId>, w: seq<DeviceId>, size: nat)
    requires |w| <= size <= |a|
    requires b == Overwrite(a, 0, w)
    ensures b[size..] == a[size..]
  {
    assert b[|w|..] == a[|w|..];
    assert b[size..] == b[|w|..][size - |w|..];
    assert a[size..] == a[|w|..][size - |w|..];
  }

  method GetNumberOfDevices(rt: Runtime) returns (r: Result<nat>)
    ensures rt.platformStatus != CL_SUCCESS ==> r == Failure(CheckFailed(rt.platformStatus))
    ensures rt.platformStatus == CL_SUCCESS ==> r == CountOutcome(Counts(Lists(rt.platforms, false)))
  {
    ghost var counts := Counts(Lists(rt.platforms, false));
    if rt.platformStatus != CL_SUCCESS {
      return Failure(CheckFailed(rt.platformStatus));
    }
    CountFromRest(counts, 0);
    var nPlatforms := |rt.platforms|;
    var n: nat := 0;
    var i := 0;
    while i < nPlatforms
      invariant 0 <= i <= nPlatforms
      invariant CountFrom(counts, i, n) == CountOutcome(counts)
    {
      if i >= PLATFORM_SLOTS {
        return Failure(OutOfBounds);
      }
      var reply := DeviceCount(Matching(rt.platforms[i], false));
      ListsIndex(rt.platforms, false, i);
      CountsIndex(Lists(rt.platforms, false), i);
      if reply.status != CL_SUCCESS {
        return Failure(CheckFailed(reply.status));
      }
      n := n + reply.count;
      i := i + 1;
    }
    r := Success(n);
  }

  // ---------------------------------------------------------------------
  // The loops meet their specification

  /** From platform i on, getDeviceIDs' loop ends as the specification says,
      provided it got to i without stopping. */
  lemma {:induction false} ListFromRest(counts: seq<nat>, size: nat, i: nat)
    requires i <= Visited(counts, size) && i <= PLATFORM_SLOTS
    requires forall j :: 0 <= j < i ==> counts[j] > 0
    ensures ListFrom(counts, size, i, Prefix(counts, i)) == ListOutcome(counts, size)
    decreases |counts| - i
  {
    if i == |counts| || Prefix(counts, i) >= size {
      VisitedLeast(counts, size, i);
    } else if i < PLATFORM_SLOTS && counts[i] > 0 {
      ListFromRest(counts, size, i + 1);
    }
  }

  /** From platform i on, getNumberOfDevices' loop ends as the specification
      says, provided it got to i without stopping. */
  lemma {:induction false} CountFromRest(counts: seq<nat>, i: nat)
    requires i <= |counts| && i <= PLATFORM_SLOTS
    requires forall j :: 0 <= j < i ==> counts[j] > 0
    ensures CountFrom(counts, i, Prefix(counts, i)) == CountOutcome(counts)
    decreases |counts| - i
  {
    if i < |counts| && i < PLATFORM_SLOTS && counts[i] > 0 {
      CountFromRest(counts, i + 1);
    }
  }

  /** getDeviceIDs stops no later than the first place where it may stop. */
  lemma VisitedLeast(counts: seq<nat>, size: nat, i: nat)
    requires i <= |counts|
    requires i == |counts| || Prefix(counts, i) >= size
    ensures Visited(counts, size) <= i
  {
    VisitedFromLeast(counts, size, 0, i);
  }

  lemma {:induction false} VisitedFromLeast(counts: seq<nat>, size: nat, j: nat, i: nat)
    requires j <= i <= |counts|
    requires i == |counts| || Prefix(counts, i) >= size
    ensures VisitedFrom(counts, size, j) <= i
    decreases i - j
  {
    if j < i && Prefix(counts, j) < size {
      VisitedFromLeast(counts, size, j + 1, i);
    }
  }

  /** Every platform getDeviceIDs queries is reached below size. */
  lemma {:induction false} VisitedBelow(counts: seq<nat>, size: nat, j: nat)
    requires j < Visited(counts, size)
    ensures Prefix(counts, j) < size
  {
    VisitedFromBelow(counts, size, 0, j);
  }

  lemma {:induction false} VisitedFromBelow(counts: seq<nat>, size: nat, i: nat, j: nat)
    requires i <= |counts| && i <= j < VisitedFrom(counts, size, i)
    ensures Prefix(counts, j) < size
    decreases j - i
  {
    if i < j {
      VisitedFromBelow(counts, size, i + 1, j);
    }
  }

  // ---------------------------------------------------------------------
  // Arithmetic of the prefixes

  /** The handles of the first i platforms are a prefix of those of the first k. */
  lemma {:induction false} GatheredPrefix(ls: seq<seq<DeviceId>>, i: nat, k: nat)
    requires i <= k <= |ls|
    ensures Gathered(ls, i) <= Gathered(ls, k)
    decreases k - i
  {
    if i < k {
      GatheredPrefix(ls, i, k - 1);
    }
  }

  /** The handles gathered from the first i platforms are as many as they report. */
  lemma {:induction false} GatheredLength(ls: seq<seq<DeviceId>>, i: nat)
    requires i <= |ls|
    ensures |Gathered(ls, i)| == Prefix(Counts(ls), i)
  {
    if i > 0 {
      GatheredLength(ls, i - 1);
      CountsIndex(ls, i - 1);
    }
  }

  /** A prefix sum never exceeds a longer one. */
  lemma {:induction false} PrefixMonotone(xs: seq<nat>, i: nat, k: nat)
    requires i <= k <= |xs|
    ensures Prefix(xs, i) <= Prefix(xs, k)
    decreases k - i
  {
    if i < k {
      PrefixMonotone(xs, i, k - 1);
    }
  }

  /** With every count positive, a shorter prefix reports strictly fewer. */
  lemma PrefixStrict(xs: seq<nat>, i: nat, k: nat)
    requires i < k <= |xs|
    requires forall j :: 0 <= j < |xs| ==> xs[j] > 0
    ensures Prefix(xs, i) < Prefix(xs, k)
  {
    PrefixMonotone(xs, i, k - 1);
  }

  // ---------------------------------------------------------------------
  // Properties of the enumeration

  /** With no room, getDeviceIDs queries no platform and returns 0. */
  lemma ListNoRoom(counts: seq<nat>)
    ensures Visited(counts, 0) == 0
    ensures ListOutcome(counts, 0) == Success(0)
  {
  }

  /** Each query getDeviceIDs makes is offered the room left below size,
      at the place right after the handles reported so far. */
  lemma OffersRoom(counts: seq<nat>, size: nat, deviceType: nat, k: nat, i: nat)
    requires k <= Visited(counts, size) && i < k
    ensures 0 < Offers(counts, size, deviceType, k)[i].room <= size
    ensures Offers(counts, size, deviceType, k)[i]
         == DeviceQuery(i, deviceType, size - Prefix(counts, i), Prefix(counts, i))
  {
    VisitedBelow(counts, size, i);
    OffersIndex(counts, size, deviceType, k, i);
  }

  lemma {:induction false} OffersIndex(counts: seq<nat>, size: nat, deviceType: nat, k: nat, i: nat)
    requires i < k <= |counts|
    ensures Offers(counts, size, deviceType, k)[i]
         == DeviceQuery(i, deviceType, size - Prefix(counts, i), Prefix(counts, i))
    decreases k
  {
    if i < k - 1 {
      OffersIndex(counts, size, deviceType, k - 1, i);
    }
  }

  /** A getDeviceIDs result n accounts for the first min(n, size) devices:
      as many as there are or as many as fit; the handles beyond size that the
      runtime reported are not written. Below size, n is the full count. */
  lemma ListedCount(counts: seq<nat>, size: nat, n: nat)
    requires ListOutcome(counts, size) == Success(n)
    ensures n <= Sum(counts)
    ensures Min(n, size) == Min(Sum(counts), size)
    ensures n < size ==> n == Sum(counts) && Visited(counts, size) == |counts|
  {
    var k := Visited(counts, size);
    PrefixMonotone(counts, k, |counts|);
  }

  /** With size 0, getDeviceIDs makes no query, writes nothing and returns 0. */
  lemma ListingNoRoom(lists: seq<seq<DeviceId>>, deviceType: nat, before: seq<DeviceId>,
                      after: seq<DeviceId>, r: Result<nat>, queries: seq<DeviceQuery>)
    requires Listing(lists, 0, deviceType, before, after, r, queries)
    ensures r == Success(0) && queries == [] && after == before
  {
    ListNoRoom(Counts(lists));
    assert after == Overwrite(before, 0, []);
  }

  /** The i-th query getDeviceIDs made was offered size minus what the
      earlier ones reported, never nothing, at that same offset. */
  lemma ListingQueries(lists: seq<seq<DeviceId>>, size: nat, deviceType: nat, before: seq<DeviceId>,
                       after: seq<DeviceId>, r: Result<nat>, queries: seq<DeviceQuery>, i: nat)
    requires size <= |before| && Listing(lists, size, deviceType, before, after, r, queries)
    requires i < |queries|
    ensures var n := Prefix(Counts(lists), i);
            queries[i] == DeviceQuery(i, deviceType, size - n, n) && 0 < size - n <= size
  {
    OffersRoom(Counts(lists), size, deviceType, |queries|, i);
  }

  /** getNumberOfDevices succeeds exactly when there are at most eight
      platforms and each has a device, and then returns the sum of the counts. */
  lemma CountSucceeds(counts: seq<nat>)
    ensures CountOutcome(counts).Success? <==>
              |counts| <= PLATFORM_SLOTS && forall j :: 0 <= j < |counts| ==> counts[j] > 0
    ensures CountOutcome(counts).Success? ==> CountOutcome(counts).value == Sum(counts)
  {
  }

  /** After a successful getDeviceIDs the array starts with the first
      min(size, n) handles of all platforms, in platform order. */
  lemma ListedHandles(lists: seq<seq<DeviceId>>, size: nat, n: nat)
    requires ListOutcome(Counts(lists), size) == Success(n)
    ensures Min(size, n) <= |Gathered(lists, |lists|)|
    ensures Filled(lists, Visited(Counts(lists), size), size) == Gathered(lists, |lists|)[..Min(size, n)]
  {
    var k := Visited(Counts(lists), size);
    GatheredLength(lists, k);
    GatheredPrefix(lists, k, |lists|);
  }

  /** The source's getDeviceIDs with more room than devices returns exactly
      what getNumberOfDevices returns. */
  lemma ListWithRoomIsCount(counts: seq<nat>, size: nat)
    requires Sum(counts) < size
    ensures ListOutcome(counts, size) == CountOutcome(counts)
  {
    PrefixMonotone(counts, Visited(counts, size), |counts|);
  }

  /** Counting the devices and then listing that many lists them all. */
  lemma CountThenList(counts: seq<nat>, n: nat)
    requires CountOutcome(counts) == Success(n)
    ensures ListOutcome(counts, n) == Success(n)
    ensures Visited(counts, n) == |counts|
  {
    var k := Visited(counts, n);
    assert forall j :: 0 <= j < |counts| ==> counts[j] > 0;
    if k < |counts| {
      PrefixStrict(counts, k, |counts|);
    }
  }

  /** A loop reads past `platforms[8]` exactly when it gets to a ninth
      platform with all eight kept platforms having matching devices. */
  lemma ScanOutOfBounds(counts: seq<nat>, k: nat)
    requires k <= |counts|
    ensures ScanOutcome(counts, k) == Failure(OutOfBounds) <==>
              k > PLATFORM_SLOTS && forall j :: 0 <= j < PLATFORM_SLOTS ==> counts[j] > 0
  {
  }
}
