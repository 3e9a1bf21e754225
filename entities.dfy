/** The rows of the store's tables, as the services read and write them.
    Timestamps are integers (milliseconds); nullable columns are Options. The
    ITR and profile rows carry the free-form `metadata` object the services keep
    signatures and roles in: its signature or role list, and every other key
    (comments, steps, preferences, ...) as opaque text. */
module Entities {
  import opened Wrappers
  import Json

  type Timestamp = int

  datatype Project = Project(
    id: string, name: string, status: string, progress: Option<int>,
    startDate: Option<Timestamp>, endDate: Option<Timestamp>)

  datatype System = System(
    id: string, name: string, projectId: string, completionRate: Option<int>,
    startDate: Option<Timestamp>, endDate: Option<Timestamp>)

  datatype Subsystem = Subsystem(
    id: string, name: string, systemId: string, completionRate: Option<int>,
    startDate: Option<Timestamp>, endDate: Option<Timestamp>)

  /** The two sign-off roles of an ITR. */
  datatype SignRole = Inspector | Approver

  datatype Signature = Signature(
    id: string, itrId: string, userId: string, role: SignRole,
    signatureDate: Timestamp, createdAt: Timestamp)

  datatype ItrMetadata = ItrMetadata(signatures: Option<seq<Signature>>, others: map<string, string>)

  /** An Inspection Test Record. */
  datatype Itr = Itr(
    id: string, name: string, status: string, progress: Option<int>,
    startDate: Option<Timestamp>, endDate: Option<Timestamp>, subsystemId: string,
    metadata: Option<ItrMetadata>)

  datatype UserRole = UserRole(id: string, userId: string, role: string, createdAt: Timestamp)

  datatype ProfileMetadata = ProfileMetadata(roles: Option<seq<UserRole>>, others: map<string, string>)

  datatype Profile = Profile(
    id: string, fullName: Option<string>, email: Option<string>, metadata: Option<ProfileMetadata>)

  datatype TestPack = TestPack(
    id: string, nombrePaquete: string, itrAsociado: string, sistema: string,
    subsistema: string, estado: string)

  datatype Tag = Tag(
    id: string, testPackId: string, tagName: string, estado: string,
    fechaLiberacion: Option<Timestamp>, createdAt: Timestamp)

  datatype Recipient = Recipient(id: string, email: string, createdAt: Timestamp)

  datatype DailySettings = DailySettings(time: string, enabled: bool)
  datatype WeeklySettings = WeeklySettings(day: string, time: string, enabled: bool)
  datatype MonthlySettings = MonthlySettings(day: string, time: string, enabled: bool)

  /** The three report cadences of the schedule row. */
  datatype ScheduleSettings = ScheduleSettings(
    daily: DailySettings, weekly: WeeklySettings, monthly: MonthlySettings)

  datatype ScheduleRow = ScheduleRow(id: string, settings: ScheduleSettings)

  /** A row of the activity log. */
  datatype LogRow = LogRow(
    id: string, action: string, tableName: string, recordId: Option<string>,
    details: Json.Json, createdAt: Timestamp)
}
