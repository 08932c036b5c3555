/** The application settings the core reads (a `pydantic` settings object in the bot). */
module Config {

  datatype Settings = Settings(
    tempDir: string,      // working directory of the temporary files
    maxFileSizeMb: int,   // operator-set ceiling on the declared file size, in MiB
    throttleRate: real,   // seconds between two admitted messages of one user
    ffmpegPath: string    // the transcoder binary
  )

  /** The defaults the bot ships with. */
  const Defaults := Settings("/tmp/flac2mp3", 50, 2.0, "ffmpeg")
}
