// The two interrupt postures, as interrupt control takes and returns them.
module InterruptPosture {
  datatype Posture = Enable | Disable
}
