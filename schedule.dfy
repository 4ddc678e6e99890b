/**
 * The surface of the work queue that the exporter uses: control events that
 * travel through the queue and can be set (acknowledged), the items a
 * dequeue returns, and the log of items put into the queue.
 */
module Schedule {
  import opened Protocol

  /** A `QueueEvent`; `exitKind` says it is a `QueueExitEvent`. `isSet` is its threading event's flag. */
  class QueueEvent {
    const exitKind: bool
    var isSet: bool

    constructor (exitKind: bool)
      ensures this.exitKind == exitKind && !isSet
    {
      this.exitKind := exitKind;
      isSet := false;
    }

    /** `event.set()`: wakes whoever waits on the event. */
    method Set()
      modifies this
      ensures isSet
    {
      isSet := true;
    }
  }

  /** What the queue holds: a log record or a control event. */
  datatype Item = Record(record: LogRecord) | Control(event: QueueEvent)

  /** The queue, seen only through its exit sentinel and the items put into it. */
  class Queue {
    const exitEvent: QueueEvent
    var puts: seq<Item>

    constructor ()
      ensures fresh(exitEvent) && exitEvent.exitKind && !exitEvent.isSet
      ensures puts == []
    {
      exitEvent := new QueueEvent(true);
      puts := [];
    }

    /** `put(item, ...)`: records the item handed to the queue. */
    method Put(item: Item)
      modifies this
      ensures puts == old(puts) + [item]
    {
      puts := puts + [item];
    }
  }
}
