/** Decoded P25 messages and the messages exchanged between the receiver's tasks. */
module P25 {

  datatype Option<+T> = None | Some(value: T)

  const U32_MAX := 0xffff_ffff

  /** A frequency in Hz (`u32`). */
  type Freq = f: nat | f <= U32_MAX
  /** A talkgroup identifier (`u16`). */
  type Group = g: nat | g <= 0xffff

  /** Data unit announced by a network identifier. */
  datatype DataUnit =
    | VoiceHeader
    | VoiceLCFrameGroup
    | VoiceCCFrameGroup
    | VoiceLCTerminator
    | VoiceSimpleTerminator
    | TrunkingSignaling
    | OtherUnit
  {
    predicate Voice() {
      VoiceHeader? || VoiceLCFrameGroup? || VoiceCCFrameGroup?
    }

    predicate Terminator() {
      VoiceLCTerminator? || VoiceSimpleTerminator?
    }
  }

  datatype CryptoAlgorithm = Unencrypted | Encrypted(kind: nat)

  /** The address of a call; only `Other` names a single talkgroup. */
  datatype TalkGroup = Reserved | Other(group: Group)

  datatype Channel = Channel(id: nat, number: nat)

  /** Parameters of a channel identifier, as announced by the site. */
  datatype ChannelParams = ChannelParams(raw: nat)

  datatype TsbkBody =
    | UnknownTsbk
    | GroupVoiceGrant(talkgroup: TalkGroup, channel: Channel)
    | GroupVoiceUpdate(updates: seq<(Channel, TalkGroup)>)
    | ChannelParamsUpdate(id: nat, params: ChannelParams)
    | OtherTsbk

  /** A trunking signalling block. */
  datatype Tsbk = Tsbk(mfg: nat, crcValid: bool, body: TsbkBody)

  /** A link control word. */
  datatype LinkControlWord =
    | UnknownLc
    | CallTermination
    | LcGroupVoiceUpdate(updates: seq<(Channel, TalkGroup)>)
    | OtherLc

  datatype VoiceFrame = VoiceFrame(id: nat)

  /** What the message decoder can return for a baseband sample. */
  datatype MessageEvent =
    | DecodeError
    | PacketNID(dataUnit: DataUnit)
    | HeaderPacket(alg: CryptoAlgorithm)
    | LinkControlPacket(lc: LinkControlWord)
    | CryptoControlPacket(alg: CryptoAlgorithm)
    | LowSpeedDataFragment
    | VoicePacket(frame: VoiceFrame)
    | TrunkingPacket(tsbk: Tsbk)
    | VoiceTermPacket(lc: LinkControlWord)

  /** Messages for the receiver task. A chunk lists what the decoder returns per sample. */
  datatype RecvEvent =
    | Baseband(samples: seq<Option<MessageEvent>>)
    | SetControlFreq(freq: Freq)
    | ResetStats

  datatype StateEvent =
    | UpdateCtlFreq(freq: Freq)
    | UpdateChannelParams(id: nat, params: ChannelParams)
    | UpdateEncrypted(group: Group, alg: CryptoAlgorithm)

  /** Messages for the hub. */
  datatype HubEvent =
    | State(update: StateEvent)
    | UpdateCurFreq(freq: Freq)
    | UpdateTalkGroup(group: Group)
    | UpdateSignalPower
    | TrunkingControl(tsbk: Tsbk)
    | LinkControl(lc: LinkControlWord)
    | UpdateStats

  /** Messages for the audio task. */
  datatype AudioEvent = Voice(frame: VoiceFrame) | EndTransmission
}
