/** The transport configuration, built from the process environment. The
    environment is a parameter: a name is absent when the variable is unset. */
module KafkaConfig {
  import opened Strings

  type Env = map<string, string>

  datatype Topics = Topics(orderEvents: string, invoiceEvents: string)

  datatype Config = Config(brokers: seq<string>, clientId: string, groupId: string, topics: Topics)

  const DefaultBroker := "localhost:9092"
  const DefaultClientId := "ecommerce-demo"
  const DefaultOrderTopic := "order-events"
  const DefaultInvoiceTopic := "invoice-events"

  /** `process.env[name] || fallback`: an unset or empty variable is falsy. */
  function OrElse(env: Env, name: string, fallback: string): (v: string)
    ensures name in env && env[name] != "" ==> v == env[name]
    ensures name !in env || env[name] == "" ==> v == fallback
  {
    if name in env && env[name] != "" then env[name] else fallback
  }

  /** `createKafkaConfig(groupId)`. The broker list is the comma-separated
      `KAFKA_BROKERS`, untrimmed, when the variable is set at all: splitting
      always yields a non-empty, hence truthy, array. */
  function CreateKafkaConfig(env: Env, groupId: string): (c: Config)
    ensures |c.brokers| >= 1
    ensures "KAFKA_BROKERS" !in env ==> c.brokers == [DefaultBroker]
    ensures "KAFKA_BROKERS" in env ==>
              Join(c.brokers, ",") == env["KAFKA_BROKERS"]
              && forall i :: 0 <= i < |c.brokers| ==> ',' !in c.brokers[i]
    ensures c.clientId == OrElse(env, "KAFKA_CLIENT_ID", DefaultClientId)
    ensures c.topics == Topics(OrElse(env, "KAFKA_TOPIC_ORDER_EVENTS", DefaultOrderTopic),
                               OrElse(env, "KAFKA_TOPIC_INVOICE_EVENTS", DefaultInvoiceTopic))
    ensures c.clientId != "" && c.topics.orderEvents != "" && c.topics.invoiceEvents != ""
    ensures c.groupId == groupId
  {
    Config(
      if "KAFKA_BROKERS" in env then Split(env["KAFKA_BROKERS"], ',') else [DefaultBroker],
      OrElse(env, "KAFKA_CLIENT_ID", DefaultClientId),
      groupId,
      Topics(OrElse(env, "KAFKA_TOPIC_ORDER_EVENTS", DefaultOrderTopic),
             OrElse(env, "KAFKA_TOPIC_INVOICE_EVENTS", DefaultInvoiceTopic)))
  }

  /** The broker list recovers the comma-separated entries exactly, spaces and
      empty entries included. */
  lemma BrokersAreTheListedEntries(env: Env, groupId: string, entries: seq<string>)
    requires |entries| >= 1
    requires forall i :: 0 <= i < |entries| ==> ',' !in entries[i]
    requires "KAFKA_BROKERS" in env && env["KAFKA_BROKERS"] == Join(entries, ",")
    ensures CreateKafkaConfig(env, groupId).brokers == entries
  {
    SplitJoin(entries, ',');
  }

  /** A set but empty `KAFKA_BROKERS` gives one empty broker, not the default. */
  lemma EmptyBrokersIsNotDefault(env: Env, groupId: string)
    requires "KAFKA_BROKERS" in env && env["KAFKA_BROKERS"] == ""
    ensures CreateKafkaConfig(env, groupId).brokers == [""]
  {
    BrokersAreTheListedEntries(env, groupId, [""]);
  }

  /** With nothing set, every setting takes its default. */
  lemma EmptyEnvironmentDefaults(groupId: string)
    ensures CreateKafkaConfig(map[], groupId)
            == Config([DefaultBroker], DefaultClientId, groupId, Topics(DefaultOrderTopic, DefaultInvoiceTopic))
  {
  }
}
