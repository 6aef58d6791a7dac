/** The configuration values of utils/constants.js that the core uses. */
module Constants {

  /** QUEUE.MAX_SIZE: the most songs `addSong` accepts into the waiting queue. */
  const QueueMaxSize: nat := 200
  /** QUEUE.MAX_RETRIES: the bound on the per-queue retry counter. */
  const MaxRetries: nat := 2
  /** QUEUE.RETRY_DELAY_MS: delay before a requeued song is tried again. */
  const RetryDelayMs: nat := 2000
  /** QUEUE.INACTIVITY_TIMEOUT_MS: five minutes of idleness before a hard stop. */
  const InactivityTimeoutMs: nat := 5 * 60 * 1000
  /** Delay between the player's Idle notification and the next `playNext`. */
  const IdleAdvanceDelayMs: nat := 1000

  /** Tracks at or above this many seconds get the cheaper dynamic filter. */
  const TwoHoursSeconds: int := 7200

  /** AUDIO.NORMALIZATION.ENABLED */
  const NormalizationEnabled: bool := true
  /** `loudnorm` with TARGET_LUFS = -16, TARGET_LRA = 11, TARGET_TP = -1.5, as the
      template literal renders them. */
  const LoudnormFilter: string := "loudnorm=I=-16:LRA=11:TP=-1.5"
  const DynaudnormFilter: string := "dynaudnorm=f=500:g=31:p=0.95:m=10.0:r=0.9:b=1"

  /** FFMPEG.* */
  const Reconnect: string := "1"
  const ReconnectStreamed: string := "1"
  const ReconnectDelayMax: string := "5"
  const AnalyzeDuration: string := "0"
  const LogLevel: string := "0"

  /** AUDIO.FORMAT, AUDIO.SAMPLE_RATE, AUDIO.CHANNELS */
  const PcmFormat: string := "s16le"
  const SampleRate: string := "48000"
  const AudioChannels: string := "2"

  /** PERMISSIONS.REQUIRED */
  const RequiredPermissions: seq<string> := ["Connect", "Speak"]

  /** MESSAGES.* used by the validators and by `addSong`. */
  const NoVoiceChannelMessage: string := "You need to be in a voice channel to play music!"
  const NoPermissionsMessage: string := "I need permissions to join and speak in your voice channel!"
  const NoMusicPlayingMessage: string := "There is no music playing!"
  const NoSongPlayingMessage: string := "There is no song playing!"
  /** MESSAGES.QUEUE_FULL(QUEUE.MAX_SIZE) */
  const QueueFullMessage: string := "Queue is full! Maximum 200 songs allowed."
}
