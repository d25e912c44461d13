/**
  The ordered severity scale the logger filters on.

  In zap a level is a signed 8-bit integer, and a larger value is a more
  severe record; the named levels are consecutive from Debug upwards. Every
  comparison in the routing policy is an ordinary integer comparison on it.
 */
module Levels {

  /** zapcore.Level: an int8. */
  newtype Level = x: int | -128 <= x < 128

  const DebugLevel: Level := -1
  const InfoLevel: Level := 0
  const WarnLevel: Level := 1
  const ErrorLevel: Level := 2
  const DPanicLevel: Level := 3
  const PanicLevel: Level := 4
  const FatalLevel: Level := 5
}
