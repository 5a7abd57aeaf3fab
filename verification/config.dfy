/** The parts of a channel's playout configuration this core touches: the
    playlists location and storage root of the channel, and the optional
    generation template of the general section. */
module Config {
  import opened Types
  import opened Paths

  /** One content source of a template; only its list of media paths
      (kept as text) is read or rewritten here. */
  datatype Source = Source(paths: seq<string>)

  /** A generation template: its sources, in order. */
  datatype Template = Template(sources: seq<Source>)

  /** `config.general`: the pending template, if any. */
  datatype General = General(template: Option<Template>)

  /** `config.channel`: where playlists are kept and the media storage root. */
  datatype Channel = Channel(playlists: Path, storage: Path)

  datatype PlayoutConfig = PlayoutConfig(general: General, channel: Channel)
}
