/** What a notification handler can be seen to do: the lines it logs and
    the emails the provider accepts, together with whether the call
    returned normally or threw. */
module Effects {
  import opened Wrappers
  import opened Errors
  import opened Sender

  datatype World = World(log: seq<string>, outbox: seq<SentEmail>)

  datatype Step = Step(world: World, outcome: Outcome<Failure>)
}
