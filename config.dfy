/** The configuration values the backend services read. The services take a
    `Settings` value as a parameter; `DefaultSettings` holds the values the
    repository ships with. */
module Config {

  datatype Settings = Settings(
    confidenceThreshold: real,
    iouThreshold: real,
    /** `ALLOWED_EXTENSIONS` is a Python set; this sequence is the order in
        which iterating over it happens to visit its elements. */
    allowedExtensions: seq<string>,
    modelPath: string)

  const DefaultSettings := Settings(0.25, 0.45, [".jpg", ".jpeg", ".png"], "models/best.pt")
}
