/** The detection thresholds the application uses (config/constants.py). */
module Constants {

  /** A breakout day trades more than 3 times the trailing average volume. */
  const VolumeThreshold: real := 3.0

  /** A breakout day closes at least 2% above the previous close. */
  const PriceThreshold: real := 0.02
}
