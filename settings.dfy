/** The configuration values the core reads, and the rendering helpers from
    OpenCV and Python that the model takes as given functions. */
module Settings {
  import opened Canvas

  datatype Config = Config(
    confidenceThreshold: real,
    cameraFps: int,
    showFps: bool,
    showConfidence: bool,
    boxColor: Bgr,
    textColor: Bgr,
    textBgColor: Bgr,
    fpsColor: Bgr,
    boxThickness: int,
    outputDir: string)

  /** The values of the shipped configuration class. */
  const Shipped := Config(
    confidenceThreshold := 0.5,
    cameraFps := 30,
    showFps := true,
    showConfidence := true,
    boxColor := Bgr(0, 255, 0),
    textColor := Bgr(255, 255, 255),
    textBgColor := Bgr(0, 255, 0),
    fpsColor := Bgr(0, 255, 255),
    boxThickness := 2,
    outputDir := "outputs")

  /** What cv2.getTextSize reports: ((width, height), baseline). */
  datatype TextSize = TextSize(width: int, height: int, baseline: int)

  /** Float formatting with two and with one decimal ("{:.2f}", "{:.1f}") and
      cv2.getTextSize for the configured font, scale and thickness. */
  datatype Rendering = Rendering(
    fixed2: real -> string,
    fixed1: real -> string,
    textSize: string -> TextSize)
}
