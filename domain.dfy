/** The records the kiosk frontend passes between its screens (App.tsx):
    orders of an employee, detected boxes and the data of a finished photo
    session. Numbers that JavaScript holds as floating point are exact reals. */
module Domain {

  datatype Order = Order(
    orderId: string,
    createdAt: string,
    status: string,
    actualTools: seq<string>,
    employeeId: string,
    toolsetName: string)

  /** One detected tool: pixel corners, confidence in [0, 1] and class. */
  datatype BBox = BBox(x1: real, y1: real, x2: real, y2: real, confidence: real, classId: int, className: string)

  datatype SessionData = SessionData(photo: string, bboxes: seq<BBox>, status: string)

  /** The two actions an employee can choose: 'take' and 'return'. */
  datatype Action = Take | Return

  /** The order statuses the screens look for. */
  const Requested := "requested"
  const InProgress := "in_progress"

  /** The order each action works on: 'take' on requested orders, 'return' on
      orders in progress. */
  function StatusFor(a: Action): string {
    match a
    case Take => Requested
    case Return => InProgress
  }

  /** The placeholder order PhotoStep receives when no order is active. */
  const EmptyOrder := Order("", "", "", [], "", "")
}
