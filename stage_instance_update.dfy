/**
  The STAGE_INSTANCE_UPDATE gateway event: the updated stage instance replaces
  the cached one in its guild's registry, and the event resolves with the new
  instance and the one it replaced.
*/
module StageInstances {
  import opened Wrappers

  datatype StageInstance = StageInstance(id: string, guildId: string, channelId: string, topic: string, privacyLevel: int)

  /** The registry of every cached guild's stage instances: guild id, then instance id. */
  type Registry = map<string, map<string, StageInstance>>

  /** A cached guild; only its stage-instance registry takes part in the event. */
  class Guild {
    const id: string
    var stageInstances: map<string, StageInstance>

    constructor (id: string, stageInstances: map<string, StageInstance>)
      ensures this.id == id && this.stageInstances == stageInstances
    {
      this.id := id;
      this.stageInstances := stageInstances;
    }

    /** `stage_instances->push`: the instance is stored under its id, replacing any there. */
    method Push(instance: StageInstance)
      modifies this
      ensures stageInstances == old(stageInstances)[instance.id := instance]
    {
      stageInstances := stageInstances[instance.id := instance];
    }
  }

  /** The client's guild cache. */
  class Client {
    var guilds: map<string, Guild>

    constructor ()
      ensures guilds == map[]
    {
      guilds := map[];
    }

    /** Each guild is cached under its own id, as one object. */
    predicate Valid()
      reads this, guilds.Values
    {
      && (forall k :: k in guilds ==> guilds[k].id == k)
      && (forall k, k' :: k in guilds && k' in guilds && k != k' ==> guilds[k] != guilds[k'])
    }

    ghost function Stages(): Registry
      reads this, guilds.Values
    {
      map k | k in guilds :: guilds[k].stageInstances
    }
  }

  /** The deferred an event handler settles: every value it was resolved with, in order. */
  class Deferred<T> {
    var resolutions: seq<T>

    constructor ()
      ensures resolutions == []
    {
      resolutions := [];
    }

    method Resolve(value: T)
      modifies this
      ensures resolutions == old(resolutions) + [value]
    {
      resolutions := resolutions + [value];
    }
  }

  /**
    The registry after the event: when the instance's guild is cached, its
    registry maps the instance id to the instance; every other entry, and
    every other guild, is as before.
  */
  function Updated(stages: Registry, instance: StageInstance): (r: Registry)
    ensures r.Keys == stages.Keys
    ensures forall g :: g in stages && g != instance.guildId ==> r[g] == stages[g]
    ensures instance.guildId in stages ==>
              && r[instance.guildId].Keys == stages[instance.guildId].Keys + {instance.id}
              && r[instance.guildId][instance.id] == instance
              && (forall i :: i in stages[instance.guildId] && i != instance.id ==> r[instance.guildId][i] == stages[instance.guildId][i])
  {
    if instance.guildId in stages then stages[instance.guildId := stages[instance.guildId][instance.id := instance]]
    else stages
  }

  /** The instance the update replaces: the cached guild's entry under the instance id, and none when the guild is not cached. */
  function Replaced(stages: Registry, instance: StageInstance): (r: Option<StageInstance>)
    ensures r.Some? <==> instance.guildId in stages && instance.id in stages[instance.guildId]
    ensures r.Some? ==> r.value == stages[instance.guildId][instance.id]
  {
    if instance.guildId in stages then Lookup(stages[instance.guildId], instance.id) else None
  }

  /**
    `handle`: looks the old instance up before pushing the new one into its
    cached guild, then resolves the deferred once with the pair. An uncached
    guild changes nothing, and the old instance is then null.
  */
  method Handle(client: Client, deferred: Deferred<(StageInstance, Option<StageInstance>)>, data: StageInstance)
    requires client.Valid()
    modifies client.guilds.Values, deferred
    ensures client.guilds == old(client.guilds) && client.Valid()
    ensures client.Stages() == Updated(old(client.Stages()), data)
    ensures deferred.resolutions == old(deferred.resolutions) + [(data, Replaced(old(client.Stages()), data))]
  {
    var replaced: Option<StageInstance> := None;
    if data.guildId in client.guilds {
      var guild := client.guilds[data.guildId];
      replaced := Lookup(guild.stageInstances, data.id);
      guild.Push(data);
    }
    deferred.Resolve((data, replaced));
  }

  /** Handling the same update twice leaves the registry as handling it once, and the second time replaces the instance itself. */
  lemma HandleTwice(stages: Registry, instance: StageInstance)
    ensures Updated(Updated(stages, instance), instance) == Updated(stages, instance)
    ensures instance.guildId in stages ==> Replaced(Updated(stages, instance), instance) == Some(instance)
  {
    if instance.guildId in stages {
      var pushed := stages[instance.guildId][instance.id := instance];
      assert pushed[instance.id := instance] == pushed;
    }
  }

  /** The replaced instance is what it takes to undo the update: pushing it back restores the registry. */
  lemma {:induction false} ReplacedUndoes(stages: Registry, instance: StageInstance)
    requires Replaced(stages, instance).Some?
    requires Replaced(stages, instance).value.id == instance.id
    requires Replaced(stages, instance).value.guildId == instance.guildId
    ensures Updated(Updated(stages, instance), Replaced(stages, instance).value) == stages
  {
    var g := instance.guildId;
    var before := stages[g];
    assert before[instance.id := instance][instance.id := before[instance.id]] == before;
  }
}
