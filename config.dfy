/**
 * `newConfig` of cmd/bright-mqtt-exporter/main.go: settings read from the
 * environment, given here as a map in which a missing name reads as "".
 */
module Config {
  import opened Wrappers

  const MQTT_HOST_ENV: string := "MQTT_HOST"
  const MQTT_USER_ENV: string := "MQTT_USER"
  const MQTT_PASS_ENV: string := "MQTT_PASS"
  const MQTT_TOPIC_ENV: string := "MQTT_TOPIC"
  const EXPORTER_PORT_ENV: string := "PORT"

  const MQTT_DEFAULT_HOST: string := "192.168.0.50:1883"
  const MQTT_DEFAULT_USER: string := "admin"
  const EXPORTER_DEFAULT_PORT: string := "9999"

  datatype Config = Config(mqttHost: string, mqttUser: string, mqttPass: string,
                           mqttTopic: string, exporterPort: string)

  /** The two settings without a default. */
  datatype ConfigError = PasswordNotSet | TopicNotSet

  /** The text of each error. */
  function Message(e: ConfigError): string
  {
    match e
    case PasswordNotSet => "the " + MQTT_PASS_ENV + " variable must be set to the connection password"
    case TopicNotSet => "the " + MQTT_TOPIC_ENV + " variable must be set to the topic"
  }

  /** `os.Getenv`: the empty string for an unset variable. */
  function Getenv(env: map<string, string>, name: string): string
  {
    if name in env then env[name] else ""
  }

  /** `v`, or `default` when `v` is empty. */
  function OrDefault(v: string, default: string): string
  {
    if v == "" then default else v
  }

  /** `newConfig`: defaults for host, user and port; password, then topic, are mandatory. */
  function NewConfig(env: map<string, string>): (r: Result<Config, ConfigError>)
    ensures r.Success? <==> Getenv(env, MQTT_PASS_ENV) != "" && Getenv(env, MQTT_TOPIC_ENV) != ""
    ensures Getenv(env, MQTT_PASS_ENV) == "" ==> r == Failure(PasswordNotSet)
    ensures Getenv(env, MQTT_PASS_ENV) != "" && Getenv(env, MQTT_TOPIC_ENV) == "" ==> r == Failure(TopicNotSet)
    ensures r.Success? ==>
      && r.value.mqttHost != "" && r.value.mqttUser != "" && r.value.mqttPass != ""
      && r.value.mqttTopic != "" && r.value.exporterPort != ""
    ensures r.Success? ==>
      && r.value.mqttPass == Getenv(env, MQTT_PASS_ENV)
      && r.value.mqttTopic == Getenv(env, MQTT_TOPIC_ENV)
      && (Getenv(env, MQTT_HOST_ENV) != "" ==> r.value.mqttHost == Getenv(env, MQTT_HOST_ENV))
      && (Getenv(env, MQTT_HOST_ENV) == "" ==> r.value.mqttHost == MQTT_DEFAULT_HOST)
      && (Getenv(env, MQTT_USER_ENV) != "" ==> r.value.mqttUser == Getenv(env, MQTT_USER_ENV))
      && (Getenv(env, MQTT_USER_ENV) == "" ==> r.value.mqttUser == MQTT_DEFAULT_USER)
      && (Getenv(env, EXPORTER_PORT_ENV) != "" ==> r.value.exporterPort == Getenv(env, EXPORTER_PORT_ENV))
      && (Getenv(env, EXPORTER_PORT_ENV) == "" ==> r.value.exporterPort == EXPORTER_DEFAULT_PORT)
  {
    var mqttHost := OrDefault(Getenv(env, MQTT_HOST_ENV), MQTT_DEFAULT_HOST);
    var mqttUser := OrDefault(Getenv(env, MQTT_USER_ENV), MQTT_DEFAULT_USER);
    var mqttPass := Getenv(env, MQTT_PASS_ENV);
    if mqttPass == "" then Failure(PasswordNotSet)
    else
      var mqttTopic := Getenv(env, MQTT_TOPIC_ENV);
      if mqttTopic == "" then Failure(TopicNotSet)
      else
        var exporterPort := OrDefault(Getenv(env, EXPORTER_PORT_ENV), EXPORTER_DEFAULT_PORT);
        Success(Config(mqttHost, mqttUser, mqttPass, mqttTopic, exporterPort))
  }
}
