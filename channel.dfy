/**
 * Channels and the terminal's channel list (src/channel/mod.rs): a channel
 * is an id, a name, its art and music, the player showing the art, the id
 * of the content and the server it came from; the manager keeps the list
 * and which channel is on.
 */
module Channels {
  import opened Wrappers
  import AsciiArtSheet
  import AsciiArtPlayer
  import ContentFile

  /** The art and music a channel carries. */
  datatype ChannelContent = ChannelContent(art: string, midiComposition: string)

  datatype Channel = Channel(
    id: int,
    name: string,
    player: AsciiArtPlayer.Player,
    content: ChannelContent,
    contentId: int,
    serverUrl: Option<string>)

  /**
   * Channel::new: fails exactly when the art is not a sprite sheet, with
   * the sheet's error; otherwise a channel with a fresh player at the first
   * frame and no server.
   */
  method NewChannel(id: int, name: string, art: string, midiComposition: string, fps: real, contentId: int)
    returns (r: Result<Channel, AsciiArtSheet.SheetError>)
    ensures r.Success? <==> AsciiArtSheet.ParseSheet(art).Success?
    ensures r.Failure? ==> r.error == AsciiArtSheet.ParseSheet(art).error
    ensures r.Success? ==>
      && r.value.id == id && r.value.name == name && r.value.contentId == contentId
      && r.value.content == ChannelContent(art, midiComposition)
      && r.value.serverUrl == None
      && fresh(r.value.player) && r.value.player.Valid()
      && r.value.player.sheet == AsciiArtSheet.ParseSheet(art).value
      && r.value.player.currentFrame == 0 && r.value.player.fps == fps
  {
    var content := ChannelContent(art, midiComposition);
    var player := AsciiArtPlayer.Player.FromString(art, fps);
    if player.Failure? {
      return Failure(player.error);
    }
    return Success(Channel(id, name, player.value, content, contentId, None));
  }

  /** with_server_url: the channel with its server set and everything else as it was. */
  function WithServerUrl(c: Channel, serverUrl: string): (r: Channel)
    ensures r.serverUrl == Some(serverUrl)
    ensures r.(serverUrl := c.serverUrl) == c
  {
    c.(serverUrl := Some(serverUrl))
  }

  /** render: the player moves on by `deltaTime` and the frame it then shows is returned. */
  method Render(c: Channel, deltaTime: real) returns (frame: string)
    requires c.player.Valid()
    modifies c.player
    ensures c.player.Valid() && frame == c.player.CurrentFrame()
    ensures c.player.Position() == AsciiArtPlayer.Updated(|c.player.sheet.frames|, old(c.player.Position()), c.player.fps, deltaTime)
  {
    c.player.Update(deltaTime);
    frame := c.player.CurrentFrame();
  }

  /** iter().position(|c| c.id == id): the index of the first channel with that id. */
  function Position(channels: seq<Channel>, id: int): (r: Option<nat>)
    ensures r.Some? ==> r.value < |channels| && channels[r.value].id == id
    ensures r.Some? ==> forall j :: 0 <= j < r.value ==> channels[j].id != id
    ensures r.None? ==> forall j :: 0 <= j < |channels| ==> channels[j].id != id
  {
    if |channels| == 0 then None
    else if channels[0].id == id then Some(0)
    else
      match Position(channels[1..], id)
      case None => None
      case Some(k) => Some(k + 1)
  }

  /** A content file that parse_content reads and whose art is a sprite sheet. */
  predicate Loadable(text: string)
  {
    && ContentFile.ParseContent(text).Success?
    && AsciiArtSheet.ParseSheet(ContentFile.ParseContent(text).value.art).Success?
  }

  /**
   * The channel carries the content's art and music, and its player shows
   * that art's sheet from the first frame at the content's frame rate.
   */
  ghost predicate BuiltFrom(c: Channel, content: ContentFile.Content)
    reads c.player
  {
    && c.content == ChannelContent(content.art, content.midiComposition)
    && AsciiArtSheet.ParseSheet(content.art).Success?
    && c.player.sheet == AsciiArtSheet.ParseSheet(content.art).value
    && c.player.currentFrame == 0 && c.player.fps == content.fps
  }

  /**
   * One built-in channel: the content file parsed by parse_content and
   * handed to Channel::new with content id -1.
   */
  method LoadChannel(id: int, name: string, text: string) returns (c: Channel)
    requires Loadable(text)
    ensures c.id == id && c.name == name && c.contentId == -1 && c.serverUrl == None
    ensures fresh(c.player) && BuiltFrom(c, ContentFile.ParseContent(text).value)
  {
    var parsed := ContentFile.ParseContent(text).value;
    var r := NewChannel(id, name, parsed.art, parsed.midiComposition, parsed.fps, -1);
    c := r.value;
  }

  /**
   * The built-in list answers the lookups the manager's tests make: id -3
   * is the second channel, id -2 the first, and 999 is none of them.
   */
  lemma BuiltInLookups(channels: seq<Channel>)
    requires |channels| == 2 && channels[0].id == -2 && channels[1].id == -3
    ensures Position(channels, -3) == Some(1)
    ensures Position(channels, -2) == Some(0)
    ensures Position(channels, 999) == None
  {
  }

  class ChannelManager {
    var channels: seq<Channel>
    var currentChannel: nat

    /** There is a channel on, and it is one of the list. */
    predicate Valid()
      reads this
    {
      currentChannel < |channels|
    }

    /**
     * new: the two built-in channels, read from the sleeping and the idle
     * cat's content files, the sleeping cat on. The source `expect`s every
     * step, so both files must parse as content whose art is a sprite sheet.
     */
    constructor (sleepingContent: string, idleContent: string)
      requires Loadable(sleepingContent) && Loadable(idleContent)
      ensures Valid() && |channels| == 2 && currentChannel == 0
      ensures channels[0].id == -2 && channels[0].name == "Sleeping Cat" && channels[0].contentId == -1
      ensures channels[1].id == -3 && channels[1].name == "Idle Cat" && channels[1].contentId == -1
      ensures channels[0].serverUrl == None && channels[1].serverUrl == None
      ensures fresh(channels[0].player) && fresh(channels[1].player) && channels[0].player != channels[1].player
      ensures BuiltFrom(channels[0], ContentFile.ParseContent(sleepingContent).value)
      ensures BuiltFrom(channels[1], ContentFile.ParseContent(idleContent).value)
    {
      var sleeping := LoadChannel(-2, "Sleeping Cat", sleepingContent);
      var idle := LoadChannel(-3, "Idle Cat", idleContent);
      channels := [sleeping, idle];
      currentChannel := 0;
    }

    /** switch_to: an index inside the list is put on; any other is ignored. */
    method SwitchTo(channelIndex: nat)
      requires Valid()
      modifies this
      ensures Valid() && channels == old(channels)
      ensures channelIndex < |channels| ==> currentChannel == channelIndex
      ensures channelIndex >= |channels| ==> currentChannel == old(currentChannel)
    {
      if channelIndex < |channels| {
        currentChannel := channelIndex;
      }
    }

    /**
     * switch_to_id: puts on the first channel with that id and answers
     * true, or answers false and keeps the channel that was on.
     */
    method SwitchToId(id: int) returns (found: bool)
      requires Valid()
      modifies this
      ensures Valid() && channels == old(channels)
      ensures found <==> exists j :: 0 <= j < |channels| && channels[j].id == id
      ensures found ==> channels[currentChannel].id == id
      ensures found ==> forall j :: 0 <= j < currentChannel ==> channels[j].id != id
      ensures !found ==> currentChannel == old(currentChannel)
    {
      match Position(channels, id)
      case Some(idx) =>
        currentChannel := idx;
        found := true;
      case None =>
        found := false;
    }

    /** current: the channel that is on. */
    function Current(): (c: Channel)
      reads this
      requires Valid()
      ensures c in channels
    {
      channels[currentChannel]
    }
  }
}
