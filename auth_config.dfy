/**
 * The client's stored credentials and the check run on them before an
 * upload: a channel id, the channel's name and the token the server issued.
 */
module ClientAuth {
  import opened Wrappers

  datatype AuthConfig = AuthConfig(channelId: int, channelName: string, jwtToken: string)

  /** The three requirements `validate` checks, in the order it checks them. */
  datatype Requirement = ChannelIdSet | ChannelNamePresent | JwtTokenPresent

  /** Whether the configuration meets one requirement. */
  predicate Meets(c: AuthConfig, q: Requirement)
  {
    match q
    case ChannelIdSet => c.channelId != 0
    case ChannelNamePresent => |c.channelName| > 0
    case JwtTokenPresent => |c.jwtToken| > 0
  }

  /** The position of a requirement in the checking order. */
  function Rank(q: Requirement): nat
  {
    match q
    case ChannelIdSet => 0
    case ChannelNamePresent => 1
    case JwtTokenPresent => 2
  }

  /** The text reported when a requirement is not met. */
  function Message(q: Requirement): string
  {
    match q
    case ChannelIdSet => "Channel ID is not set"
    case ChannelNamePresent => "Channel name is empty"
    case JwtTokenPresent => "JWT token is empty"
  }

  /**
   * validate: accepts exactly the configurations that meet every requirement;
   * otherwise it reports the first requirement, in checking order, that fails.
   */
  function Validate(c: AuthConfig): (r: Result<(), Requirement>)
    ensures r.Success? <==> forall q :: Meets(c, q)
    ensures r.Failure? ==> !Meets(c, r.error)
    ensures r.Failure? ==> forall q :: Rank(q) < Rank(r.error) ==> Meets(c, q)
  {
    if c.channelId == 0 then assert !Meets(c, ChannelIdSet); Failure(ChannelIdSet)
    else if |c.channelName| == 0 then assert !Meets(c, ChannelNamePresent); Failure(ChannelNamePresent)
    else if |c.jwtToken| == 0 then assert !Meets(c, JwtTokenPresent); Failure(JwtTokenPresent)
    else Success(())
  }
}
