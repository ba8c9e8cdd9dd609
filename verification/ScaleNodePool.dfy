/** The patch that scales a node pool: int32 arithmetic, quorum rules, pool choice. */
module ScaleNodePool {
  import opened Wrappers
  import opened Operations

  datatype MachinePool = MachinePool(name: string, quantity: int, etcdRole: bool)

  datatype ProvCluster = ProvCluster(name: string, rkeConfig: Option<seq<MachinePool>>)

  datatype ScaleParams = ScaleParams(nodePoolName: string, desiredSize: int, amountToAdd: int, amountToSubtract: int)

  datatype ScaleError =
    | NilRkeConfig | NoNodePools | NegativeSize | NothingRequested | BothAmounts | PoolNotFound
    | QuorumLoss | TooManyEtcdNodes | EvenEtcdNodes | NotPositive

  const INT32_LIMIT := 0x8000_0000

  predicate InInt32(x: int) { -INT32_LIMIT <= x < INT32_LIMIT }

  /** Go's conversion to int32, and the wrap-around of int32 arithmetic. */
  function Int32(x: int): int { (x + INT32_LIMIT) % (2 * INT32_LIMIT) - INT32_LIMIT }

  lemma Int32Exact(x: int)
    ensures InInt32(Int32(x)) && (Int32(x) == x <==> InInt32(x))
  {
  }

  predicate Selects(prov: ProvCluster, pool: MachinePool, name: string) {
    name == pool.name || name == prov.name + "-" + pool.name
  }

  /** The size the loop computes, in int32, for the pool it stops at. */
  function WrappedSize(quantity: int, p: ScaleParams): int {
    if Int32(p.amountToSubtract) != 0 then Int32(quantity - Int32(p.amountToSubtract))
    else if Int32(p.amountToAdd) != 0 then Int32(quantity + Int32(p.amountToAdd))
    else Int32(p.desiredSize)
  }

  function Refusal(pool: MachinePool, size: int): Option<ScaleError> {
    if pool.etcdRole && size < 3 && size < pool.quantity then Some(QuorumLoss)
    else if pool.etcdRole && size > 7 then Some(TooManyEtcdNodes)
    else if pool.etcdRole && size % 2 == 0 then Some(EvenEtcdNodes)
    else if size <= 0 then Some(NotPositive)
    else None
  }

  function FirstFrom(prov: ProvCluster, pools: seq<MachinePool>, name: string, i: nat): (k: nat)
    requires i <= |pools|
    ensures i <= k <= |pools|
    ensures forall j :: i <= j < k ==> !Selects(prov, pools[j], name)
    ensures k < |pools| ==> Selects(prov, pools[k], name)
    decreases |pools| - i
  {
    if i == |pools| || Selects(prov, pools[i], name) then i else FirstFrom(prov, pools, name, i + 1)
  }

  function ScalePatch(prov: ProvCluster, p: ScaleParams): Result<JsonDoc, ScaleError> {
    if prov.rkeConfig.None? then Failure(NilRkeConfig)
    else
      var pools := prov.rkeConfig.value;
      if pools == [] then Failure(NoNodePools)
      else if Int32(p.desiredSize) < 0 then Failure(NegativeSize)
      else if Int32(p.desiredSize) == 0 && Int32(p.amountToAdd) == 0 && Int32(p.amountToSubtract) == 0 then
        Failure(NothingRequested)
      else if Int32(p.amountToAdd) != 0 && Int32(p.amountToSubtract) != 0 then Failure(BothAmounts)
      else
        var k := FirstFrom(prov, pools, p.nodePoolName, 0);
        if k == |pools| then Failure(PoolNotFound)
        else
          var size := WrappedSize(pools[k].quantity, p);
          match Refusal(pools[k], size)
          case Some(error) => Failure(error)
          case None => Success(ReplaceQuantity(k, size))
  }

  /** The loop of the source, with its reassigned size and its early exits. */
  method ComputeScalePatch(prov: ProvCluster, p: ScaleParams) returns (r: Result<JsonDoc, ScaleError>)
    ensures r == ScalePatch(prov, p)
  {
    var desiredSize, amountToAdd, amountToSubtract :=
      Int32(p.desiredSize), Int32(p.amountToAdd), Int32(p.amountToSubtract);
    if prov.rkeConfig.None? {
      return Failure(NilRkeConfig);
    }
    var pools := prov.rkeConfig.value;
    if |pools| == 0 {
      return Failure(NoNodePools);
    }
    if desiredSize < 0 {
      return Failure(NegativeSize);
    }
    if desiredSize == 0 && amountToAdd == 0 && amountToSubtract == 0 {
      return Failure(NothingRequested);
    }
    if amountToAdd != 0 && amountToSubtract != 0 {
      return Failure(BothAmounts);
    }
    var poolIndex := -1;
    for i := 0 to |pools|
      invariant poolIndex == -1
      invariant desiredSize == Int32(p.desiredSize)
      invariant FirstFrom(prov, pools, p.nodePoolName, 0) == FirstFrom(prov, pools, p.nodePoolName, i)
    {
      var pool := pools[i];
      if p.nodePoolName != pool.name && p.nodePoolName != prov.name + "-" + pool.name {
        continue;
      }
      poolIndex := i;
      var oldQuantity := pool.quantity;
      if amountToAdd != 0 {
        desiredSize := Int32(pool.quantity + amountToAdd);
      }
      if amountToSubtract != 0 {
        desiredSize := Int32(pool.quantity - amountToSubtract);
      }
      if pool.etcdRole {
        if desiredSize < 3 && desiredSize < oldQuantity {
          return Failure(QuorumLoss);
        }
        if desiredSize > 7 {
          return Failure(TooManyEtcdNodes);
        }
        if desiredSize % 2 == 0 {
          return Failure(EvenEtcdNodes);
        }
      }
      if desiredSize <= 0 {
        return Failure(NotPositive);
      }
      break;
    }
    if poolIndex == -1 {
      return Failure(PoolNotFound);
    }
    r := Success(ReplaceQuantity(poolIndex, desiredSize));
  }

  /** The size asked for, without any bound on the integers. */
  function TrueSize(quantity: int, p: ScaleParams): int {
    if p.amountToSubtract != 0 then quantity - p.amountToSubtract
    else if p.amountToAdd != 0 then quantity + p.amountToAdd
    else p.desiredSize
  }

  /** The amount that decides the size. */
  function DecidingAmount(p: ScaleParams): int {
    if p.amountToSubtract != 0 then p.amountToSubtract
    else if p.amountToAdd != 0 then p.amountToAdd
    else p.desiredSize
  }

  predicate Allowed(pool: MachinePool, size: int) {
    && 0 < size < INT32_LIMIT
    && (pool.etcdRole ==> size % 2 == 1 && size <= 7 && (size < 3 ==> size >= pool.quantity))
  }

  predicate SaneQuantities(prov: ProvCluster) {
    prov.rkeConfig.Some? ==> forall pool :: pool in prov.rkeConfig.value ==> 0 <= pool.quantity < INT32_LIMIT
  }

  predicate WellFormedRequest(p: ScaleParams) {
    && p.desiredSize >= 0
    && (p.desiredSize != 0 || p.amountToAdd != 0 || p.amountToSubtract != 0)
    && (p.amountToAdd == 0 || p.amountToSubtract == 0)
  }

  predicate IsFirstMatch(prov: ProvCluster, name: string, k: nat) {
    && prov.rkeConfig.Some? && k < |prov.rkeConfig.value| && Selects(prov, prov.rkeConfig.value[k], name)
    && forall j :: 0 <= j < k ==> !Selects(prov, prov.rkeConfig.value[j], name)
  }

  lemma FirstMatchIsFirst(prov: ProvCluster, name: string, k: nat)
    requires IsFirstMatch(prov, name, k)
    ensures FirstFrom(prov, prov.rkeConfig.value, name, 0) == k
  {
    var pools := prov.rkeConfig.value;
    var f := FirstFrom(prov, pools, name, 0);
    assert f < |pools| ==> Selects(prov, pools[f], name);
  }

  /** For int32 inputs the wrap-around is invisible: a patch is emitted exactly when
      the mathematical size is allowed for the first pool of that name, and it
      carries that size. */
  lemma EmitsExactlyTheTrueSize(prov: ProvCluster, p: ScaleParams, k: nat, size: int)
    requires SaneQuantities(prov)
    requires InInt32(p.desiredSize) && InInt32(p.amountToAdd) && InInt32(p.amountToSubtract)
    ensures ScalePatch(prov, p) == Success(ReplaceQuantity(k, size)) <==>
      && WellFormedRequest(p) && IsFirstMatch(prov, p.nodePoolName, k)
      && size == TrueSize(prov.rkeConfig.value[k].quantity, p) && Allowed(prov.rkeConfig.value[k], size)
  {
    Int32Exact(p.desiredSize);
    Int32Exact(p.amountToAdd);
    Int32Exact(p.amountToSubtract);
    if prov.rkeConfig.Some? {
      var pools := prov.rkeConfig.value;
      var f := FirstFrom(prov, pools, p.nodePoolName, 0);
      if IsFirstMatch(prov, p.nodePoolName, k) {
        FirstMatchIsFirst(prov, p.nodePoolName, k);
      }
      if f < |pools| && WellFormedRequest(p) {
        assert pools[f] in pools;
        WrapIsRefused(pools[f], p);
      }
    }
  }

  /** Every int32 wrap-around of the pool arithmetic lands on a refused size. */
  lemma WrapIsRefused(pool: MachinePool, p: ScaleParams)
    requires 0 <= pool.quantity < INT32_LIMIT
    requires InInt32(p.desiredSize) && InInt32(p.amountToAdd) && InInt32(p.amountToSubtract)
    requires WellFormedRequest(p)
    ensures Refusal(pool, WrappedSize(pool.quantity, p)).None? <==> Allowed(pool, TrueSize(pool.quantity, p))
    ensures Allowed(pool, TrueSize(pool.quantity, p)) ==> WrappedSize(pool.quantity, p) == TrueSize(pool.quantity, p)
  {
    Int32Exact(p.desiredSize);
    Int32Exact(p.amountToAdd);
    Int32Exact(p.amountToSubtract);
    WrappedIsTrueOrRefused(pool.quantity, p);
    RefusedIffNotAllowed(pool, WrappedSize(pool.quantity, p));
  }

  /** Below the range the sum cannot fall; above it the sum wraps below zero. */
  lemma WrappedIsTrueOrRefused(quantity: int, p: ScaleParams)
    requires 0 <= quantity < INT32_LIMIT && WellFormedRequest(p)
    requires InInt32(p.desiredSize) && InInt32(p.amountToAdd) && InInt32(p.amountToSubtract)
    ensures InInt32(WrappedSize(quantity, p))
    ensures var size, wrapped := TrueSize(quantity, p), WrappedSize(quantity, p);
      wrapped == size || (wrapped <= 0 && size >= INT32_LIMIT)
  {
    Int32Exact(p.desiredSize);
    Int32Exact(p.amountToAdd);
    Int32Exact(p.amountToSubtract);
    WrapsOnce(quantity + p.amountToAdd);
    WrapsOnce(quantity - p.amountToSubtract);
  }

  lemma WrapsOnce(x: int)
    requires -INT32_LIMIT <= x < 2 * INT32_LIMIT
    ensures InInt32(Int32(x)) && Int32(x) == if x < INT32_LIMIT then x else x - 2 * INT32_LIMIT
  {
  }

  lemma RefusedIffNotAllowed(pool: MachinePool, size: int)
    requires InInt32(size)
    ensures Refusal(pool, size).None? <==> Allowed(pool, size)
  {
  }

  /** Any inputs at all: an emitted patch answers a well-formed request with the size it
      asks for exactly when the amount that decides it fits int32, the desired size is
      not negative, and one amount at most is named. */
  lemma TrueSizeIffAmountFits(prov: ProvCluster, p: ScaleParams)
    requires SaneQuantities(prov) && ScalePatch(prov, p).Success?
    ensures var doc := ScalePatch(prov, p).value;
      && IsFirstMatch(prov, p.nodePoolName, doc.poolIndex)
      && (WellFormedRequest(p) && doc.size == TrueSize(prov.rkeConfig.value[doc.poolIndex].quantity, p) <==>
            InInt32(DecidingAmount(p)) && p.desiredSize >= 0 && (p.amountToAdd == 0 || p.amountToSubtract == 0))
  {
    var pools := prov.rkeConfig.value;
    var pool := pools[FirstFrom(prov, pools, p.nodePoolName, 0)];
    assert pool in pools;
    if p.desiredSize >= 0 && (p.amountToAdd == 0 || p.amountToSubtract == 0) {
      SizeIsTrueIffFits(pool.quantity, p);
    }
  }

  lemma SizeIsTrueIffFits(quantity: int, p: ScaleParams)
    requires 0 <= quantity < INT32_LIMIT && p.desiredSize >= 0 && (p.amountToAdd == 0 || p.amountToSubtract == 0)
    requires WrappedSize(quantity, p) > 0
    ensures WrappedSize(quantity, p) == TrueSize(quantity, p) <==> InInt32(DecidingAmount(p))
  {
    Int32Exact(p.desiredSize);
    Int32Exact(p.amountToAdd);
    Int32Exact(p.amountToSubtract);
    Int32Exact(quantity + Int32(p.amountToAdd));
    Int32Exact(quantity - Int32(p.amountToSubtract));
  }

  /** An amount cut to zero slips past the checks: these requests name two amounts, or a
      negative size, and a patch is emitted. */
  lemma TruncationHidesAmounts()
    ensures var prov := ProvCluster("c", Some([MachinePool("a", 5, false)]));
      && ScalePatch(prov, ScaleParams("a", 0, 0x1_0000_0000, 1)) == Success(ReplaceQuantity(0, 4))
      && ScalePatch(prov, ScaleParams("a", -0x1_0000_0000, 1, 0)) == Success(ReplaceQuantity(0, 6))
      && !WellFormedRequest(ScaleParams("a", 0, 0x1_0000_0000, 1))
      && !WellFormedRequest(ScaleParams("a", -0x1_0000_0000, 1, 0))
  {
    var prov := ProvCluster("c", Some([MachinePool("a", 5, false)]));
    assert Selects(prov, MachinePool("a", 5, false), "a");
    assert FirstFrom(prov, prov.rkeConfig.value, "a", 0) == 0;
  }

  /** The pool has that name, plain or behind the name of its cluster. */
  predicate IsCalled(prov: ProvCluster, pool: MachinePool, name: string) {
    pool.name == name || prov.name + "-" + pool.name == name
  }

  /** Pool `k` is the first of that name, and the size is what was asked of it: its
      quantity plus an amount, or minus one, or the desired size; and one that keeps the
      quorum of an etcd pool. */
  predicate AnswersRequest(prov: ProvCluster, name: string, desired: int, add: int, subtract: int, k: nat, size: int) {
    && prov.rkeConfig.Some? && k < |prov.rkeConfig.value|
    && var pools := prov.rkeConfig.value;
    && IsCalled(prov, pools[k], name) && (forall j :: 0 <= j < k ==> !IsCalled(prov, pools[j], name))
    && 0 < size && (pools[k].etcdRole ==> size % 2 == 1 && size <= 7 && (size < 3 ==> size >= pools[k].quantity))
    && (0 <= pools[k].quantity < 0x8000_0000 && Fits32(desired) && Fits32(add) && Fits32(subtract) ==>
          && (add != 0 ==> subtract == 0 && size == pools[k].quantity + add)
          && (subtract != 0 ==> add == 0 && size == pools[k].quantity - subtract)
          && (add == 0 && subtract == 0 ==> size == desired))
  }

  predicate Fits32(x: int) { -0x8000_0000 <= x < 0x8000_0000 }

  lemma PatchAnswersRequest(prov: ProvCluster, p: ScaleParams)
    requires ScalePatch(prov, p).Success?
    ensures var doc := ScalePatch(prov, p).value;
      doc.ReplaceQuantity? &&
      AnswersRequest(prov, p.nodePoolName, p.desiredSize, p.amountToAdd, p.amountToSubtract, doc.poolIndex, doc.size)
  {
    var k := FirstFrom(prov, prov.rkeConfig.value, p.nodePoolName, 0);
    var pool := prov.rkeConfig.value[k];
    Int32Exact(p.desiredSize);
    Int32Exact(p.amountToAdd);
    Int32Exact(p.amountToSubtract);
    if 0 <= pool.quantity < INT32_LIMIT && Fits32(p.desiredSize) && Fits32(p.amountToAdd) &&
       Fits32(p.amountToSubtract) {
      WrappedIsTrueOrRefused(pool.quantity, p);
    }
  }

  /** Etcd pools keep a quorum: odd, at most seven, never shrunk below three. */
  lemma EtcdQuorum(prov: ProvCluster, p: ScaleParams)
    requires ScalePatch(prov, p).Success?
    ensures var doc := ScalePatch(prov, p).value;
      doc.size > 0 && prov.rkeConfig.Some? && doc.poolIndex < |prov.rkeConfig.value| &&
      (var pool := prov.rkeConfig.value[doc.poolIndex];
       pool.etcdRole ==> doc.size % 2 == 1 && doc.size <= 7 && !(doc.size < 3 && doc.size < pool.quantity))
  {
  }

  /** What each refusal says, for amounts and quantities in range. */
  ghost predicate RefusalHolds(prov: ProvCluster, p: ScaleParams, error: ScaleError) {
    match error
    case NilRkeConfig => prov.rkeConfig.None?
    case NoNodePools => prov.rkeConfig == Some([])
    case NegativeSize => p.desiredSize < 0
    case NothingRequested => p.desiredSize == 0 && p.amountToAdd == 0 && p.amountToSubtract == 0
    case BothAmounts => p.amountToAdd != 0 && p.amountToSubtract != 0
    case PoolNotFound =>
      prov.rkeConfig.Some? && forall pool :: pool in prov.rkeConfig.value ==> !IsCalled(prov, pool, p.nodePoolName)
    case _ => exists k: nat :: RefusedPool(prov, p, error, k)
  }

  /** The first pool of the name cannot have the size asked for: beyond int32 it reads as
      too small. */
  predicate RefusedPool(prov: ProvCluster, p: ScaleParams, error: ScaleError, k: nat) {
    && prov.rkeConfig.Some? && k < |prov.rkeConfig.value| && IsCalled(prov, prov.rkeConfig.value[k], p.nodePoolName)
    && (forall j :: 0 <= j < k ==> !IsCalled(prov, prov.rkeConfig.value[j], p.nodePoolName))
    && var pool := prov.rkeConfig.value[k];
    && var size := pool.quantity + p.amountToAdd - p.amountToSubtract;
    && var asked := if p.amountToAdd == 0 && p.amountToSubtract == 0 then p.desiredSize else size;
    && match error
       case QuorumLoss => pool.etcdRole && ((asked < 3 && asked < pool.quantity) || asked >= 0x8000_0000)
       case TooManyEtcdNodes => pool.etcdRole && 7 < asked < 0x8000_0000
       case EvenEtcdNodes => pool.etcdRole && asked % 2 == 0 && asked <= 7
       case NotPositive => asked <= 0 || asked >= 0x8000_0000
       case _ => false
  }

  lemma RefusalMeans(prov: ProvCluster, p: ScaleParams)
    requires SaneQuantities(prov) && Fits32(p.desiredSize) && Fits32(p.amountToAdd) && Fits32(p.amountToSubtract)
    requires ScalePatch(prov, p).Failure?
    ensures RefusalHolds(prov, p, ScalePatch(prov, p).error)
  {
    Int32Exact(p.desiredSize);
    Int32Exact(p.amountToAdd);
    Int32Exact(p.amountToSubtract);
    if prov.rkeConfig.Some? {
      var k := FirstFrom(prov, prov.rkeConfig.value, p.nodePoolName, 0);
      if k < |prov.rkeConfig.value| {
        assert prov.rkeConfig.value[k] in prov.rkeConfig.value;
        if WellFormedRequest(p) {
          WrappedIsTrueOrRefused(prov.rkeConfig.value[k].quantity, p);
          assert RefusedPool(prov, p, ScalePatch(prov, p).error, k);
        }
      }
    }
  }
}
