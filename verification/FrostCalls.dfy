/** The functions of `engine_ed25519`, updating the session maps and the export registry in place.
    Each is proved to be a run of the sections of `FrostSessions`, to the effect that
    `FrostEngine.Effect` states. */
module FrostCalls {
  import opened Wrappers
  import opened SessionKeys
  import opened FrostSessions
  import opened FrostInvariant
  import opened FrostEngine

  /** What a call returns. */
  datatype Reply =
    | Error | InProgress | KeygenDone(vk: Bytes) | SignDone | RecoverDone(nvk: Bytes, version: int) | ExportDone(xvk: Bytes)

  function ReplyOf(o: Outcome): Reply {
    match o
    case Rejected => Error
    case Continued => InProgress
    case KeyReady(vk) => KeygenDone(vk)
    case Signed => SignDone
    case Rotated(vk, version, _) => RecoverDone(vk, version)
    case Exported(vk) => ExportDone(vk)
  }

  class Engine {
    const library: LibCall -> Answer
    var sessions: map<Key, Session>
    var exported: set<Bytes>
    var clock: nat
    var nextId: nat                 // identity for the next library state or nonce
    ghost var flights: map<nat, Flight>
    ghost var info: map<nat, Info>
    ghost var uses: seq<Use>

    ghost function View(): State
      reads this
    {
      State(Store(sessions, exported, clock), flights, History(info, uses, nextId))
    }

    constructor (library: LibCall -> Answer)
      ensures this.library == library && View() == INIT
    {
      this.library := library;
      sessions, exported, clock, nextId := map[], {}, 0, 0;
      flights, info, uses := map[], map[], [];
    }

    /** Bring the history up to date after a whole call. */
    ghost method Record(before: State, c: nat, r: Request, reply: Reply)
      requires Inv(before) && c !in before.flights
      requires var e := Effect(before, r, Answered(library, before, r));
               Store(sessions, exported, clock) == e.store && nextId == e.next && reply == ReplyOf(e.outcome)
      modifies this`flights, this`info, this`uses
      ensures Performed(before, View(), c, r, Answered(library, before, r))
    {
      var a := Answered(library, before, r);
      var t := After(before, c, r, a);
      WholeCall(before, c, r, a);
      flights, info, uses := t.flights, t.hist.info, t.hist.uses;
    }

    ghost predicate Did(s: State, c: nat, r: Request, reply: Reply)
      reads this
    {
      var a := Answered(library, s, r);
      Performed(s, View(), c, r, a) && reply == ReplyOf(Effect(s, r, a).outcome)
    }

    method KeygenRound1(sid: string, payload: Option<Bytes>, ghost c: nat) returns (reply: Reply)
      requires Inv(View()) && c !in flights
      modifies this
      ensures Did(old(View()), c, Request.KeygenRound1(sid, payload), reply)
    {
      ghost var s := View();
      hide Inv, Performed;
      reply := Error;
      if payload.Some? {
        var answer := library(Part1(nextId));
        if answer.Granted? {
          sessions := sessions[Key(Keygen, sid) := KeygenSession(LibState(nextId, 1), payload.value)];
          nextId := nextId + 1;
          reply := InProgress;
        }
      }
      Record(s, c, Request.KeygenRound1(sid, payload), reply);
    }

    method KeygenRound2(sid: string, payload: Option<Bytes>, ghost c: nat) returns (reply: Reply)
      requires Inv(View()) && c !in flights
      modifies this
      ensures Did(old(View()), c, Request.KeygenRound2(sid, payload), reply)
    {
      ghost var s := View();
      var k := Key(Keygen, sid);
      reply := Error;
      if payload.Some? && k in sessions {
        var x := sessions[k];
        StoredTyped(s, k);
        hide Inv, Performed, Holds;
        sessions := sessions - {k};
        var answer := library(Part2(x.lib, x.pending));
        if answer.Granted? {
          sessions := sessions[k := KeygenSession(LibState(nextId, x.lib.parts + 1), payload.value)];
          nextId := nextId + 1;
          reply := InProgress;
          PutBack(s.store, k, sessions[k]);
        }
      }
      Record(s, c, Request.KeygenRound2(sid, payload), reply);
    }

    method KeygenFinalize(sid: string, ghost c: nat) returns (reply: Reply)
      requires Inv(View()) && c !in flights
      modifies this
      ensures Did(old(View()), c, Request.KeygenFinalize(sid), reply)
    {
      ghost var s := View();
      var k := Key(Keygen, sid);
      reply := Error;
      if k in sessions {
        var x := sessions[k];
        StoredTyped(s, k);
        hide Inv, Performed, Holds;
        sessions := sessions - {k};
        var answer := library(Part3(x.lib, x.pending));
        if answer.Granted? { reply := KeygenDone(answer.key); }
      }
      Record(s, c, Request.KeygenFinalize(sid), reply);
    }

    method SignRound1(sid: string, commitments: Option<Bytes>, share: Option<Bytes>, message: Option<Bytes>, ghost c: nat)
      returns (reply: Reply)
      requires Inv(View()) && c !in flights
      modifies this
      ensures Did(old(View()), c, Request.SignRound1(sid, commitments, share, message), reply)
    {
      ghost var s := View();
      hide Inv, Performed;
      reply := Error;
      if commitments.Some? && share.Some? && message.Some? {
        if share.value !in exported {
          sessions := sessions[Key(Sign, sid) := SignSession(Some(nextId), message.value, false, share.value)];
          nextId := nextId + 1;
          reply := InProgress;
        }
      }
      Record(s, c, Request.SignRound1(sid, commitments, share, message), reply);
    }

    method SignRound2(sid: string, package: Option<Bytes>, ghost c: nat) returns (reply: Reply)
      requires Inv(View()) && c !in flights
      modifies this
      ensures Did(old(View()), c, Request.SignRound2(sid, package), reply)
    {
      ghost var s := View();
      var k := Key(Sign, sid);
      reply := Error;
      if package.Some? && k in sessions {
        var x := sessions[k];
        StoredTyped(s, k);
        hide Inv, Performed, Holds;
        sessions := sessions - {k};
        if !x.consumed {
          x := x.(consumed := true);
          if package.value == x.message {
            var nonces := x.nonces;
            x := x.(nonces := None);
            if nonces.Some? {
              var answer := library(SignAndAggregate(nonces.value, package.value));
              if answer.Granted? { reply := SignDone; }
            }
          }
        }
      }
      Record(s, c, Request.SignRound2(sid, package), reply);
    }

    method RecoverRound1(sid: string, payload: Option<Bytes>, backup: Option<Bytes>, rotation: Option<int>, ghost c: nat)
      returns (reply: Reply)
      requires Inv(View()) && c !in flights
      modifies this
      ensures Did(old(View()), c, Request.RecoverRound1(sid, payload, backup, rotation), reply)
    {
      ghost var s := View();
      hide Inv, Performed;
      reply := Error;
      if payload.Some? && backup.Some? && rotation.Some? {
        var answer := library(Part1(nextId));
        if answer.Granted? {
          sessions := sessions[Key(Recover, sid) :=
            RecoverySession(LibState(nextId, 1), payload.value, rotation.value, clock, backup.value)];
          nextId := nextId + 1;
          reply := InProgress;
        }
      }
      Record(s, c, Request.RecoverRound1(sid, payload, backup, rotation), reply);
    }

    method RecoverRound2(sid: string, payload: Option<Bytes>, ghost c: nat) returns (reply: Reply)
      requires Inv(View()) && c !in flights
      modifies this
      ensures Did(old(View()), c, Request.RecoverRound2(sid, payload), reply)
    {
      ghost var s, r := View(), Request.RecoverRound2(sid, payload);
      var k := Key(Recover, sid);
      if k in sessions { StoredTyped(s, k); }
      RecoverRound2Effect(library, s, sid, payload);
      hide Inv, Performed, Holds, Effect, Answered, Asks;
      reply := Error;
      if k in sessions {
        var x := sessions[k];
        if clock - x.createdAt > SESSION_TTL {
          sessions := sessions - {k};
        } else if payload.Some? {
          sessions := sessions - {k};
          var answer := library(Part2(x.rlib, x.rpending));
          if answer.Granted? {
            sessions := sessions[k :=
              RecoverySession(LibState(nextId, x.rlib.parts + 1), payload.value, x.version, x.createdAt, x.vk)];
            nextId := nextId + 1;
            reply := InProgress;
            PutBack(s.store, k, sessions[k]);
          }
        }
      }
      Record(s, c, r, reply);
    }

    method RecoverFinalize(sid: string, ghost c: nat) returns (reply: Reply)
      requires Inv(View()) && c !in flights
      modifies this
      ensures Did(old(View()), c, Request.RecoverFinalize(sid), reply)
    {
      ghost var s := View();
      var k := Key(Recover, sid);
      reply := Error;
      if k in sessions {
        var x := sessions[k];
        StoredTyped(s, k);
        hide Inv, Performed, Holds;
        sessions := sessions - {k};
        var answer := library(Part3(x.rlib, x.rpending));
        if answer.Granted? && answer.key == x.vk { reply := RecoverDone(answer.key, NextVersion(x.version)); }
      }
      Record(s, c, Request.RecoverFinalize(sid), reply);
    }

    /** `local` and `server` are the verifying keys of the two shares; see `Export` for the rest. */
    method ExportPrivateKey(local: Option<Bytes>, server: Option<Bytes>, ghost c: nat) returns (reply: Reply)
      requires Inv(View()) && c !in flights
      modifies this
      ensures Did(old(View()), c, Request.Export(local, server), reply)
    {
      ghost var s := View();
      hide Inv, Performed;
      reply := Error;
      if local.Some? && server.Some? && local.value == server.value {
        var answer := library(Reconstruct(local.value));
        if answer.Granted? {
          exported := exported + {local.value};
          reply := ExportDone(local.value);
        }
      }
      Record(s, c, Request.Export(local, server), reply);
    }

    method Elapse(seconds: nat)
      requires Inv(View())
      modifies this`clock
      ensures View() == Step(old(View()), Tick(seconds)) && Inv(View())
    {
      clock := clock + seconds;
    }

    /** A call for a round that the engine does not have changes nothing. */
    ghost predicate Refuses(s: State, reply: Reply)
      reads this
    {
      View() == s && reply == Error
    }

    method CallKeygen(sid: string, round: int, payload: Option<Bytes>, ghost c: nat) returns (reply: Reply)
      requires Inv(View()) && c !in flights
      modifies this
      ensures if round == 1 then Did(old(View()), c, Request.KeygenRound1(sid, payload), reply)
              else if round == 2 then Did(old(View()), c, Request.KeygenRound2(sid, payload), reply)
              else if round == 0 then Did(old(View()), c, Request.KeygenFinalize(sid), reply)
              else Refuses(old(View()), reply)
    {
      if round == 1 { reply := KeygenRound1(sid, payload, c); }
      else if round == 2 { reply := KeygenRound2(sid, payload, c); }
      else if round == 0 { reply := KeygenFinalize(sid, c); }
      else { reply := Error; }
    }

    method CallSign(sid: string, round: int, commitments: Option<Bytes>, package: Option<Bytes>,
                    share: Option<Bytes>, message: Option<Bytes>, ghost c: nat) returns (reply: Reply)
      requires Inv(View()) && c !in flights
      modifies this
      ensures if round == 1 then Did(old(View()), c, Request.SignRound1(sid, commitments, share, message), reply)
              else if round == 2 then Did(old(View()), c, Request.SignRound2(sid, package), reply)
              else Refuses(old(View()), reply)
    {
      if round == 1 { reply := SignRound1(sid, commitments, share, message, c); }
      else if round == 2 { reply := SignRound2(sid, package, c); }
      else { reply := Error; }
    }

    method CallRecover(sid: string, round: int, payload: Option<Bytes>, backup: Option<Bytes>, rotation: Option<int>,
        ghost c: nat)
      returns (reply: Reply)
      requires Inv(View()) && c !in flights
      modifies this
      ensures if round == 1 then Did(old(View()), c, Request.RecoverRound1(sid, payload, backup, rotation), reply)
              else if round == 2 then Did(old(View()), c, Request.RecoverRound2(sid, payload), reply)
              else if round == 0 then Did(old(View()), c, Request.RecoverFinalize(sid), reply)
              else Refuses(old(View()), reply)
    {
      if round == 1 { reply := RecoverRound1(sid, payload, backup, rotation, c); }
      else if round == 2 { reply := RecoverRound2(sid, payload, c); }
      else if round == 0 { reply := RecoverFinalize(sid, c); }
      else { reply := Error; }
    }
  }
}
