/** The declarative descriptions that drive the backup: for each node, whether
    to save it, which named children to descend into unconditionally, and which
    named lists to enumerate, descending into every member with the list's
    description. The dictionaries of the source become ordered sequences of
    entries, in the order the literals declare them (a literal never repeats a
    name, so a sequence loses nothing). */
module Schema {

  datatype Node = Node(save: bool, children: seq<Entry>, lists: seq<Entry>)

  datatype Entry = Entry(name: string, node: Node)

  /** `{'save': True}`, the leaf that every description ends in. */
  const Saved := Node(true, [], [])

  /** The hunting group shared by easyHunting and ovhPabx: agents with their
      queues and queues with their agents. */
  const AgentQueueHunting :=
    Node(true, [], [
      Entry("agent", Node(true, [], [Entry("queue", Saved)])),
      Entry("queue", Node(true, [], [Entry("agent", Saved)]))])

  const AbbreviatedNumber := Saved

  const EasyHunting :=
    Node(true,
      [ Entry("timeConditions", Node(true, [], [Entry("conditions", Saved)])),
        Entry("screenListConditions", Node(true, [], [Entry("conditions", Saved)])),
        Entry("hunting", AgentQueueHunting) ],
      [ Entry("sound", Saved) ])

  const EasyPabx :=
    Node(true,
      [ Entry("hunting", Node(true, [Entry("tones", Saved)], [Entry("agent", Saved)])) ],
      [])

  const Fax := Node(true, [Entry("settings", Saved)], [])

  const Line :=
    Node(true,
      [ Entry("options", Saved),
        Entry("phone", Node(true, [], [Entry("functionKey", Saved), Entry("phonebook", Saved)])) ],
      [ Entry("abbreviatedNumber", Saved) ])

  const MiniPabx :=
    Node(true,
      [ Entry("hunting", Node(true, [], [Entry("agent", Saved)])),
        Entry("tones", Saved) ],
      [])

  const Number := Saved

  const OvhPabx :=
    Node(true,
      [ Entry("hunting", AgentQueueHunting) ],
      [ Entry("sound", Saved),
        Entry("tts", Saved),
        Entry("menu", Node(true, [], [Entry("entry", Saved)])),
        Entry("dialplan", Node(true, [], [
          Entry("extension", Node(true, [], [
            Entry("conditionScreenList", Saved),
            Entry("conditionTime", Saved),
            Entry("rule", Saved)]))])) ])

  const Phonebook := Node(true, [], [Entry("phonebookContact", Saved)])

  const Redirect := Saved

  const Scheduler := Saved

  const Screen := Node(true, [], [Entry("screenLists", Saved)])

  const Service := Node(true, [Entry("directory", Saved)], [])

  const TimeCondition := Node(true, [Entry("options", Saved)], [Entry("condition", Saved)])

  /** The resource types of a billing group, in the order the group backup
      visits them, each with the description its objects are backed up with. */
  const ResourceTypes: seq<Entry> := [
    Entry("abbreviatedNumber", AbbreviatedNumber),
    Entry("easyHunting", EasyHunting),
    Entry("easyPabx", EasyPabx),
    Entry("fax", Fax),
    Entry("line", Line),
    Entry("miniPabx", MiniPabx),
    Entry("number", Number),
    Entry("ovhPabx", OvhPabx),
    Entry("phonebook", Phonebook),
    Entry("redirect", Redirect),
    Entry("scheduler", Scheduler),
    Entry("screen", Screen),
    Entry("service", Service),
    Entry("timeCondition", TimeCondition)
  ]
}
