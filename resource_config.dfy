/**
 * The configuration of the Vivado runner. The source declares it a frozen
 * dataclass, so it is a value here: nothing can change it after it is built.
 */
module ResourceConfig {

  const DefaultDevicePart: string := "xc7vx485tffg1157-1"
  const DefaultJobs: int := 10
  const DefaultPostRunSleepSeconds: int := 120

  datatype VivadoConfig = VivadoConfig(
    settingsScript: string,
    projectRoot: string,
    devicePart: string,
    jobs: int,
    postRunSleepSeconds: int)

  /** `VivadoConfig(settings_script, project_root)`: the two required fields, defaults for the rest. */
  function NewConfig(settingsScript: string, projectRoot: string): (c: VivadoConfig)
    ensures c.settingsScript == settingsScript && c.projectRoot == projectRoot
    ensures c.devicePart == "xc7vx485tffg1157-1"
    ensures c.jobs == 10
    ensures c.postRunSleepSeconds == 120
  {
    VivadoConfig(settingsScript, projectRoot, DefaultDevicePart, DefaultJobs, DefaultPostRunSleepSeconds)
  }
}
