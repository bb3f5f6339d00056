/**
 * AbstractPlayableObjectDeserializer: reads the "type" discriminator of a
 * playable object, looks it up in a fixed two-entry factory table and hands
 * the whole element to the matching factory, or raises JsonParseException.
 *
 * The factories' own work is Gson's context.deserialize into TrackFull or
 * EpisodeFull, so it enters the model as the two functions of a Context.
 */
module PlayableObjects {
  import opened Wrappers
  import opened Exceptions
  import opened Json

  /** The AbstractPlayableObject a factory returns, tagged with its concrete class. */
  datatype Playable<TrackFull, EpisodeFull> = Track(track: TrackFull) | Episode(episode: EpisodeFull)

  /** Gson's JsonDeserializationContext, as far as the factories use it. */
  datatype Context<TrackFull, EpisodeFull> = Context(
    asTrackFull: Json -> Result<TrackFull, Exception>,
    asEpisodeFull: Json -> Result<EpisodeFull, Exception>)

  datatype Factory = TrackPlayableObjectFactory | EpisodePlayableObjectFactory

  /** The static factory table, filled once and never changed. */
  const FactoryMap: map<string, Factory> :=
    map["track" := TrackPlayableObjectFactory, "episode" := EpisodePlayableObjectFactory]

  const TypeMember: string := "type"

  /** A factory deserializes the element it is given into its own concrete class. */
  function Produce<TrackFull, EpisodeFull>(factory: Factory, json: Json, context: Context<TrackFull, EpisodeFull>)
    : (r: Result<Playable<TrackFull, EpisodeFull>, Exception>)
    ensures r.Success? && factory == TrackPlayableObjectFactory ==> r.value.Track?
    ensures r.Success? && factory == EpisodePlayableObjectFactory ==> r.value.Episode?
  {
    match factory
    case TrackPlayableObjectFactory =>
      (match context.asTrackFull(json)
       case Success(t) => Success(Track(t))
       case Failure(e) => Failure(e))
    case EpisodePlayableObjectFactory =>
      (match context.asEpisodeFull(json)
       case Success(e) => Success(Episode(e))
       case Failure(x) => Failure(x))
  }

  /**
   * The discriminator as the deserializer reads it: the element must be an
   * object, its "type" member is fetched (null when absent, so calling
   * getAsString on it throws NullPointerException) and read as a string.
   */
  function ObjectType(json: Json): (r: Result<string, Exception>)
    ensures !json.JObject? ==> r == Failure(IllegalState)
    ensures json.JObject? && TypeMember !in json.members ==> r == Failure(NullPointer)
    ensures json.JObject? && TypeMember in json.members ==> r == GetAsString(json.members[TypeMember])
  {
    var members :- GetAsJsonObject(json);
    match Get(members, TypeMember)
    case None => Failure(NullPointer)
    case Some(element) => GetAsString(element)
  }

  /** The factory lookup: exact string equality against the table's keys. */
  function SelectFactory(json: Json): (r: Result<Factory, Exception>)
    ensures r.Success? <==> ObjectType(json).Success? && ObjectType(json).value in {"track", "episode"}
    ensures r.Success? ==> r.value == (if ObjectType(json).value == "track" then TrackPlayableObjectFactory
                                       else EpisodePlayableObjectFactory)
    ensures ObjectType(json).Failure? ==> r == Failure(ObjectType(json).error)
    ensures ObjectType(json).Success? && ObjectType(json).value !in {"track", "episode"} ==>
              r == Failure(JsonParse("Unknown object type: " + ObjectType(json).value))
  {
    var objectType :- ObjectType(json);
    if objectType in FactoryMap then Success(FactoryMap[objectType])
    else Failure(JsonParse("Unknown object type: " + objectType))
  }

  /** deserialize: select the factory from the discriminator and give it the whole element. */
  function Deserialize<TrackFull, EpisodeFull>(json: Json, context: Context<TrackFull, EpisodeFull>)
    : (r: Result<Playable<TrackFull, EpisodeFull>, Exception>)
    ensures r.Success? ==> ObjectType(json) == Success(if r.value.Track? then "track" else "episode")
  {
    var factory :- SelectFactory(json);
    Produce(factory, json, context)
  }

  /** A "track" discriminator hands the unmodified element to the track factory and returns what it yields. */
  lemma TrackDelegatesWholeElement<TrackFull, EpisodeFull>(json: Json, context: Context<TrackFull, EpisodeFull>)
    requires ObjectType(json) == Success("track")
    ensures Deserialize(json, context).Success? <==> context.asTrackFull(json).Success?
    ensures context.asTrackFull(json).Success? ==>
              Deserialize(json, context) == Success(Track(context.asTrackFull(json).value))
    ensures context.asTrackFull(json).Failure? ==>
              Deserialize(json, context) == Failure(context.asTrackFull(json).error)
  {
  }

  /** An "episode" discriminator hands the unmodified element to the episode factory, which yields an EpisodeFull. */
  lemma EpisodeDelegatesWholeElement<TrackFull, EpisodeFull>(json: Json, context: Context<TrackFull, EpisodeFull>)
    requires ObjectType(json) == Success("episode")
    ensures Deserialize(json, context).Success? <==> context.asEpisodeFull(json).Success?
    ensures context.asEpisodeFull(json).Success? ==>
              Deserialize(json, context) == Success(Episode(context.asEpisodeFull(json).value))
    ensures context.asEpisodeFull(json).Failure? ==>
              Deserialize(json, context) == Failure(context.asEpisodeFull(json).error)
  {
  }

  /**
   * Decoding succeeds exactly when the discriminator reads as one of the two
   * table keys and the factory it selects succeeds.
   */
  lemma DecodeSucceedsIffKnownType<TrackFull, EpisodeFull>(json: Json, context: Context<TrackFull, EpisodeFull>)
    ensures Deserialize(json, context).Success? <==>
              || (ObjectType(json) == Success("track") && context.asTrackFull(json).Success?)
              || (ObjectType(json) == Success("episode") && context.asEpisodeFull(json).Success?)
  {
  }

  /**
   * When the discriminator is missing, unreadable or not a table key, decoding
   * fails with the lookup's exception and no factory runs: swapping the
   * context changes nothing.
   */
  lemma UnknownTypeInvokesNoFactory<TrackFull, EpisodeFull>(
    json: Json, context: Context<TrackFull, EpisodeFull>, other: Context<TrackFull, EpisodeFull>)
    requires ObjectType(json) != Success("track") && ObjectType(json) != Success("episode")
    ensures Deserialize(json, context).Failure?
    ensures Deserialize(json, context) == Deserialize(json, other)
    ensures ObjectType(json).Success? ==>
              Deserialize(json, context) == Failure(JsonParse("Unknown object type: " + ObjectType(json).value))
  {
  }

  /** A missing "type" member fails at the null dereference, not with JsonParseException. */
  lemma MissingTypeIsNullDereference<TrackFull, EpisodeFull>(
    members: map<string, Json>, context: Context<TrackFull, EpisodeFull>)
    requires TypeMember !in members
    ensures Deserialize(JObject(members), context) == Failure(NullPointer)
  {
  }

  /** Only the "type" member selects the factory: objects that agree on it select alike. */
  lemma OnlyTypeMemberSelects(members: map<string, Json>, others: map<string, Json>)
    requires TypeMember in members <==> TypeMember in others
    requires TypeMember in members ==> members[TypeMember] == others[TypeMember]
    ensures SelectFactory(JObject(members)) == SelectFactory(JObject(others))
  {
  }

  /** Setting any member other than "type" leaves the branch taken unchanged. */
  lemma OtherMembersDoNotSelect(members: map<string, Json>, name: string, value: Json)
    requires name != TypeMember
    ensures SelectFactory(JObject(members[name := value])) == SelectFactory(JObject(members))
  {
    OnlyTypeMemberSelects(members[name := value], members);
  }

  /** The lookup is exact and case-sensitive: "Track" is an unknown type. */
  lemma LookupIsCaseSensitive<TrackFull, EpisodeFull>(context: Context<TrackFull, EpisodeFull>)
    ensures Deserialize(JObject(map[TypeMember := JString("Track")]), context)
            == Failure(JsonParse("Unknown object type: Track"))
  {
    var json := JObject(map[TypeMember := JString("Track")]);
    assert ObjectType(json) == Success("Track");
    assert "Track"[0] != "track"[0] && "Track" != "episode";
    assert "Unknown object type: " + "Track" == "Unknown object type: Track";
  }

  /**
   * The discriminator is read with getAsString, so "track" wrapped in
   * one-element arrays still selects the track factory.
   */
  lemma NestedDiscriminatorSelectsTrack(members: map<string, Json>, depth: nat)
    requires TypeMember in members && members[TypeMember] == Nest(JString("track"), depth)
    ensures SelectFactory(JObject(members)) == Success(TrackPlayableObjectFactory)
  {
    SingletonArraysReadAsTheirElement(JString("track"), depth);
  }
}
