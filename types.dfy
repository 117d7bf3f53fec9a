/** The monitor's front-end records (src/lib/types.ts and the local interfaces of
    src/lib/store.ts). */
module Types {
  import opened Protocol

  datatype InstanceStatus = Idle | Working | Error | Complete | Disabled

  /** One monitored editor window. */
  datatype Instance = Instance(
    id: string,
    windowTitle: string,
    windowHandle: int,
    projectPath: string,
    projectName: string,
    enabled: bool,
    customPrompt: Option<string>,
    currentIssue: int,
    totalIssues: int,
    retryCount: int,
    maxRetries: int,
    status: InstanceStatus,
    lastActivity: int,
    stepCount: int)

  datatype Settings = Settings(
    defaultPrompt: string,
    inactivitySeconds: int,
    maxRetries: int,
    discordWebhook: string,
    notifyOnComplete: bool,
    notifyOnError: bool,
    minimizeToTray: bool)

  /** One window the backend's scan reported. */
  datatype ScanResult = ScanResult(windowTitle: string, windowHandle: int, processId: int)

  /** What the backend reports for one instance on refresh (store.ts's local
      `InstanceStatus` interface). */
  datatype StatusReport = StatusReport(
    status: InstanceStatus,
    currentIssue: int,
    totalIssues: int,
    retryCount: int,
    lastActivity: int,
    stepCount: int)
}
