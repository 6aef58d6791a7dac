/** `QueueManager` (utils/musicQueue.js:575-594): the registry of one
    `MusicQueue` per guild, kept in a map from guild id to queue. */
module QueueRegistry {
  import opened QueueState
  import opened MusicQueues
  import QueueLaws

  class QueueManager {
    var queues: map<string, MusicQueue>

    /** Each guild's queue was made for that guild, so distinct guilds
        have distinct queues, and every queue keeps its own invariant. */
    ghost predicate Valid()
      reads this, queues.Values
    {
      forall g :: g in queues ==> queues[g].guildId == g && queues[g].Valid()
    }

    constructor()
      ensures queues == map[] && Valid()
    {
      queues := map[];
    }

    /** `getQueue(guildId)`: the guild's queue, created on first use and
        the same object on every later call. */
    method GetQueue(guildId: string) returns (q: MusicQueue)
      requires Valid()
      modifies this
      ensures Valid()
      ensures q.guildId == guildId && guildId in queues && queues[guildId] == q
      ensures guildId in old(queues) ==> queues == old(queues) && q == old(queues)[guildId]
      ensures guildId !in old(queues) ==> fresh(q) && q.Snap() == Initial() && queues == old(queues)[guildId := q]
    {
      if guildId !in queues {
        var created := new MusicQueue(guildId);
        queues := queues[guildId := created];
      }
      q := queues[guildId];
    }

    /** `deleteQueue(guildId)`: a queue that exists is stopped, then cleaned
        up, then forgotten; the other guilds' queues are untouched. */
    method DeleteQueue(guildId: string)
      requires Valid()
      modifies this, if guildId in queues then {queues[guildId]} else {}
      ensures Valid()
      ensures queues == old(queues) - {guildId}
      ensures guildId in old(queues) ==>
                old(queues)[guildId].Snap() == QueueState.Cleanup(QueueState.Stop(old(queues[guildId].Snap())))
    {
      if guildId in queues {
        var q := queues[guildId];
        q.Stop();
        q.Cleanup();
        queues := queues - {guildId};
      }
    }
  }
}
