/** The persisted settings record and the two process-wide statics that the
    settings controller and the MQTT manager share. */
module Config {
  import opened JavaLang

  /** A Java `int`. */
  type Int32 = x: int | InInt32(x)

  /** The `Configuration` record, restricted to the fields the settings form
      reads and writes as integers, strings and flags. */
  datatype Configuration = Configuration(
    numberOfCPUThreads: Int32,
    serialPort: string,
    screenResX: Int32,
    screenResY: Int32,
    osScaling: Int32,
    defaultLedMatrix: string,
    mqttServer: string,
    mqttTopic: string,
    mqttUsername: string,
    mqttPwd: string,
    mqttEnable: bool,
    mqttStream: bool,
    topLed: Int32,
    leftLed: Int32,
    rightLed: Int32,
    bottomLeftLed: Int32,
    bottomRightLed: Int32,
    orientation: string)

  /** The statics `FireflyLuciferin.config` (null before the first save) and
      `FireflyLuciferin.communicationError`. */
  class AppGlobals {
    var config: Option<Configuration>
    var communicationError: bool

    constructor (config: Option<Configuration>)
      ensures this.config == config
      ensures !communicationError
    {
      this.config := config;
      communicationError := false;
    }
  }
}
