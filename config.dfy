/** The configuration constants the pipeline reads (config.py); everything else there comes from the environment and is a parameter here. */
module Config {

  /** Capture format: 16 kHz, one channel. */
  const SAMPLE_RATE: int := 16000
  const CHANNELS: int := 1

  /** The key combination that must be held to record. */
  const RECORD_HOTKEY: set<string> := {"cmd", "shift", "e"}

  /** Defaults of the environment settings that select models and providers. */
  const DEFAULT_ASR_MODEL := "paraformer-v2"
  const DEFAULT_MERGE_PROVIDER := "openai"
  const DEFAULT_MERGE_MODEL := "gpt-3.5-turbo"
}
