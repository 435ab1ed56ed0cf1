/** The backend as the client sees it: the writes a handler issues, the reply it
    gets for each, and the snapshot a read returns. The backend itself (storage,
    joins, ordering, conflict resolution) is not modelled. */
module Gateway {
  import opened Common
  import opened Domain

  /** One write request against a backend table. */
  datatype Request =
    | UpdateAppointmentStatus(appointmentId: string, status: string)
    | InsertPrescription(appointmentId: string, medicines: seq<Medicine>, instructions: string)
    | InsertAppointment(doctorId: string, patientId: Option<string>, dateOffset: int, time: string, status: string)
      /** upsert on the conflict key (doctor_id, day_of_week) */
    | UpsertAvailability(doctorId: string, dayOfWeek: int, startTime: string, endTime: string)
    | DeleteAvailability(doctorId: string, dayOfWeek: int)
    | SavePushToken(userId: string, token: string)

  /** The backend's answer to one write. */
  datatype Reply = Ok | Failed(message: string)

  /** What a read returns: a snapshot of the table's rows, or an error. */
  datatype Fetched<T> = Rows(rows: seq<T>) | ReadError(message: string)
}
