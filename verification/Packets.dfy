/** What one scheduled packet of the responder holds.

    A pointer to a service or to a host item becomes a number, and the address of
    a packet becomes its `id`: two packets of the list never share one, and the
    action queue refers to a packet by it. */
module Packets {
  import opened Options

  datatype Protocol = V4 | V6

  /** One PCB of the responder: an interface and an IP protocol. */
  datatype Key = Key(netif: nat, protocol: Protocol)

  datatype RecordType = A | PTR | TXT | AAAA | SRV | ANY | SDPTR

  /** An entry of an answer list. `service` and `host` are the two pointers of the
      entry, None where the source stores NULL. */
  datatype Answer = Answer(rtype: RecordType, service: Option<nat>, host: Option<nat>, flush: bool, bye: bool)

  /** Whose string the name of a question is: the server's, the host name of a
      service, the instance name of a service, or a copy the question owns. */
  datatype Name = ServerName | HostOf(service: nat) | InstanceOf(service: nat) | Copied

  /** An entry of a question list. `owner` is the service whose type and protocol
      strings the entry borrows; `service` and `proto` are those strings, None where
      the source stores NULL. */
  datatype Question = Question(qtype: RecordType, unicast: bool, host: Name, owner: Option<nat>,
                               service: Option<string>, proto: Option<string>)

  /** `distributed` says that the packet answers a truncated query. `announces` marks what
      the two announcing functions build; the source has no such field and never looks at
      one, it lets the history tell announcements from answers. */
  datatype Packet = Packet(id: nat, pcb: Key, sendAt: nat, queued: bool, distributed: bool, announces: bool,
                           questions: seq<Question>, answers: seq<Answer>,
                           servers: seq<Answer>, additional: seq<Answer>)

  /** No question and no entry left in any list. */
  predicate Emptied(p: Packet) {
    p.questions == [] && p.answers == [] && p.servers == [] && p.additional == []
  }

  /** Same address, PCB, time and queue mark: only the contents may differ. */
  predicate SameHeader(p: Packet, q: Packet) {
    p.id == q.id && p.pcb == q.pcb && p.sendAt == q.sendAt && p.queued == q.queued
  }
}
