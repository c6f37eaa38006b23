/**
 * The tool-agnostic resource summary produced by the synthesis
 * collaborators: a tool name, a target device and optional metrics. An
 * absent metric is `None`, never a synthetic zero.
 */
module ResourceReportModel {
  import opened Common

  /** Maximum frequency in MHz; a float the loop stores but never computes with. */
  type Fmax = real

  datatype ResourceReport = ResourceReport(
    tool: string,
    target: string,
    lut: Option<int>,
    ff: Option<int>,
    dsp: Option<int>,
    bram: Option<int>,
    uram: Option<int>,
    fmaxMhz: Option<Fmax>)

  /** `ResourceReport(tool, target)`: every optional field takes its default. */
  function NewReport(tool: string, target: string): (r: ResourceReport)
    ensures r.tool == tool && r.target == target
    ensures NoMetrics(r)
  {
    ResourceReport(tool, target, None, None, None, None, None, None)
  }

  /** A report that carries no metric at all. */
  predicate NoMetrics(r: ResourceReport) {
    r.lut.None? && r.ff.None? && r.dsp.None? && r.bram.None? && r.uram.None? && r.fmaxMhz.None?
  }
}
