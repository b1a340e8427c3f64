// Protocol constants (src/consts.rs); durations are in nanoseconds.
module Consts {
  import opened Types

  const SECOND: nat := 1_000_000_000

  const REKEY_ATTEMPT_TIME: nat := 90 * SECOND
  const REJECT_AFTER_TIME: nat := 180 * SECOND
  const REKEY_AFTER_TIME: nat := 120 * SECOND
  const REKEY_AFTER_TIME_RECV: nat := REJECT_AFTER_TIME - KEEPALIVE_TIMEOUT - REKEY_TIMEOUT
  const WIPE_AFTER_TIME: nat := REJECT_AFTER_TIME * 3
  const REKEY_TIMEOUT: nat := 5 * SECOND
  const KEEPALIVE_TIMEOUT: nat := 10 * SECOND
  const STALE_SESSION_TIMEOUT: nat := KEEPALIVE_TIMEOUT + REKEY_TIMEOUT
  const COOKIE_REFRESH_TIME: nat := 120 * SECOND
  const MAX_HANDSHAKE_ATTEMPTS: nat := REKEY_ATTEMPT_TIME / REKEY_TIMEOUT - 1

  const U64_MAX: u64 := 0xffff_ffff_ffff_ffff
  const REKEY_AFTER_MESSAGES: u64 := U64_MAX - 0x1_0000 - 1
  const REJECT_AFTER_MESSAGES: u64 := U64_MAX - 16 - 1

  const TRANSPORT_HEADER_SIZE: nat := 16
  const AEAD_TAG_SIZE: nat := 16
  const TRANSPORT_OVERHEAD: nat := TRANSPORT_HEADER_SIZE + AEAD_TAG_SIZE
  const MAX_SEGMENT_SIZE: nat := 0xffff
  const MAX_CONTENT_SIZE: nat := MAX_SEGMENT_SIZE - TRANSPORT_OVERHEAD
  const PADDING_MULTIPLE: nat := 16

  const MAX_QUEUED_PACKETS: nat := 1024
  const MAX_PEERS_PER_DEVICE: nat := 0x10_0000
}
