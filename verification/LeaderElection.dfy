/** The election object as it is written, each command tied to a step of the election's state machine. */
module LeaderElection {
  import opened Domain
  import opened Leader

  class Server {
    var rd: Redis

    constructor (rd: Redis)
      ensures this.rd == rd
    {
      this.rd := rd;
    }
  }

  /** What the heartbeat finds when it wakes: the server, and the flag as other coroutines have left it. */
  datatype Wake = Wake(rd: Redis, flag: bool)

  class Election {
    const redis: Server
    const token: Node
    const ttl: Time
    var epoch: nat
    var isLeader: bool
    var beating: bool
    ghost var won: bool
    ghost var leaving: bool
    ghost var term: nat

    ghost function Me(): Local
      reads this
    {
      Local(isLeader, epoch, beating, won, leaving, true, term)
    }

    /** The object and the server are this process's part of the state `s`. */
    ghost predicate In(s: State)
      reads this, redis
    {
      s.rd == redis.rd && s.ttl == ttl && token in s.nodes && s.nodes[token] == Me()
    }

    constructor (redis: Server, token: Node, ttl: Time)
      ensures this.redis == redis && this.token == token && this.ttl == ttl && Me() == FRESH
    {
      this.redis, this.token, this.ttl := redis, token, ttl;
      epoch, isLeader, beating := 0, false, false;
      won, leaving, term := false, false, 0;
    }

    /** SET NX PX: the first command of an acquisition. */
    method SendSet(ghost s: State) returns (acquired: bool)
      requires In(s) && !isLeader && !won
      modifies redis, this`won, this`term
      ensures acquired <==> Free(s.rd)
      ensures In(Apply(s, TrySet(token)))
    {
      acquired := redis.rd.lock.None? || redis.rd.lock.value.expires <= redis.rd.now;
      if acquired {
        redis.rd := redis.rd.(lock := Some(Lock(token, redis.rd.now + ttl)));
        won, term := true, |s.wins|;
      }
    }

    /** INCR, and only then the flag and the heartbeat. */
    method TakeEpoch(ghost s: State)
      requires In(s) && won
      modifies redis, this
      ensures In(Apply(s, Incr(token)))
    {
      redis.rd := redis.rd.(counter := redis.rd.counter + 1);
      epoch := redis.rd.counter;
      isLeader := true;
      beating := true;
      won := false;
    }

    /** Both commands. `between` is the state other processes have brought about when the second one runs,
        `meanwhile` what the server looks like then. */
    method TryAcquire(meanwhile: Redis, ghost s: State, ghost between: State) returns (acquired: bool)
      requires In(s) && !won
      requires !isLeader && Free(s.rd) ==>
        && between.rd == meanwhile && between.ttl == ttl && token in between.nodes
        && between.nodes[token] == Apply(s, TrySet(token)).nodes[token]
      modifies redis, this
      ensures acquired <==> old(isLeader) || Free(s.rd)
      ensures In(if !old(isLeader) && Free(s.rd) then Apply(between, Incr(token)) else s)
      ensures !old(isLeader) && acquired ==> epoch == meanwhile.counter + 1
    {
      if isLeader {
        return true;
      }
      acquired := SendSet(s);
      if acquired {
        redis.rd := meanwhile;
        TakeEpoch(between);
      }
    }

    /** GET the key; when the token is not there, stop the heartbeat and step down. */
    method VerifyStillLeader(ghost s: State) returns (ok: bool)
      requires In(s)
      modifies this`isLeader, this`beating
      ensures ok <==> PassesVerify(s, token)
      ensures In(if old(isLeader) then Apply(s, Verify(token)) else s)
    {
      if !isLeader {
        return false;
      }
      ok := redis.rd.lock.Some? && redis.rd.lock.value.owner == token && redis.rd.now < redis.rd.lock.value.expires;
      if !ok {
        beating := false;
        isLeader := false;
      }
    }

    /** The renewal script. */
    method Renew() returns (renewed: bool)
      modifies redis
      ensures renewed <==> Holds(old(redis.rd), token)
      ensures redis.rd == Extend(old(redis.rd), token, ttl)
    {
      renewed := redis.rd.lock.Some? && redis.rd.lock.value.owner == token && redis.rd.now < redis.rd.lock.value.expires;
      if renewed {
        redis.rd := redis.rd.(lock := Some(Lock(token, redis.rd.now + ttl)));
      }
    }

    /** One turn of the heartbeat. */
    method Beat(ghost s: State) returns (renewed: bool)
      requires In(s) && isLeader && beating
      modifies redis, this`isLeader, this`beating
      ensures renewed <==> Holds(s.rd, token)
      ensures In(Apply(s, Step.Beat(token)))
    {
      renewed := Renew();
      if !renewed {
        isLeader := false;
        beating := false;
      }
    }

    /** `wakes[k]` is what the loop finds when it wakes for the k-th time. It ends for good at the first wake-up at
        which another coroutine has taken the flag down, sending nothing, or at which the key is not its own, leaving that
        key alone; until then it renews. */
    method HeartbeatLoop(wakes: seq<Wake>) returns (beats: nat)
      requires isLeader && beating
      modifies redis, this`isLeader, this`beating
      ensures beats <= |wakes| && (forall k :: 0 <= k < beats ==> Renews(wakes[k]))
      ensures beats < |wakes| ==> !Renews(wakes[beats]) && redis.rd == wakes[beats].rd
      ensures isLeader == beating == (beats == |wakes|)
      ensures beats == |wakes| ==>
        redis.rd == if wakes == [] then old(redis.rd) else Extend(wakes[beats - 1].rd, token, ttl)
    {
      beats := 0;
      while isLeader && beats < |wakes|
        invariant beats <= |wakes| && (forall k :: 0 <= k < beats ==> Renews(wakes[k]))
        invariant isLeader == beating
        invariant !isLeader ==> beats < |wakes| && !Renews(wakes[beats]) && redis.rd == wakes[beats].rd
        invariant isLeader ==> redis.rd == if beats == 0 then old(redis.rd) else Extend(wakes[beats - 1].rd, token, ttl)
        decreases isLeader, |wakes| - beats
      {
        redis.rd, isLeader := wakes[beats].rd, wakes[beats].flag;
        if !isLeader {
          beating := false;
          return;
        }
        var renewed := Renew();
        if !renewed {
          isLeader := false;
          beating := false;
        } else {
          beats := beats + 1;
        }
      }
    }

    /** The flag is still up and the key is this process's. */
    predicate Renews(wake: Wake) { wake.flag && Holds(wake.rd, token) }

    /** Stop the heartbeat and delete the key if it is still this process's. */
    method SendDelete(ghost s: State)
      requires In(s) && isLeader && !leaving
      modifies redis, this`beating, this`leaving
      ensures In(Apply(s, Step.Release(token)))
    {
      beating := false;
      if redis.rd.lock.Some? && redis.rd.lock.value.owner == token && redis.rd.now < redis.rd.lock.value.expires {
        redis.rd := redis.rd.(lock := None);
      }
      leaving := true;
    }

    method ClearFlag(ghost s: State)
      requires In(s) && leaving
      modifies this`isLeader, this`leaving
      ensures In(Apply(s, Left(token)))
    {
      isLeader := false;
      leaving := false;
    }

    /** Both commands. `between` is the state that other processes, and other coroutines of this one, have brought
        about when the deletion has been answered: the server is `meanwhile` then, this object `here`. */
    method Release(meanwhile: Redis, here: Local, ghost s: State, ghost between: State)
      requires In(s) && !leaving
      requires isLeader ==>
        && between.rd == meanwhile && between.ttl == ttl && token in between.nodes
        && between.nodes[token] == here && here.alive && here.leaving
      modifies redis, this
      ensures In(if old(isLeader) then Apply(between, Left(token)) else s)
      ensures old(isLeader) ==> !isLeader
    {
      if !isLeader {
        return;
      }
      SendDelete(s);
      redis.rd := meanwhile;
      epoch, isLeader, beating := here.epoch, here.isLeader, here.beating;
      won, leaving, term := here.won, here.leaving, here.term;
      ClearFlag(between);
    }
  }
}
