/** The Android project files, written by directory. The job server lists
    eleven of them after a generation, the Android file tools save six, and
    the Android test checks nine; all three spell the same paths. */
module AndroidPaths {
  const AndroidDir := "android/"
  const AppDir := AndroidDir + "app/"
  const MainDir := AppDir + "src/main/"
  const ResDir := MainDir + "res/"
  const KotlinDir := MainDir + "kotlin/com/example/"

  const ProjectBuildGradle := AndroidDir + "build.gradle"
  const SettingsGradle := AndroidDir + "settings.gradle"
  const LocalProperties := AndroidDir + "local.properties"
  const AppBuildGradle := AppDir + "build.gradle"
  const Manifest := MainDir + "AndroidManifest.xml"
  const StringsXml := ResDir + "values/strings.xml"
  const StylesXml := ResDir + "values/styles.xml"
  const LaunchBackground := ResDir + "drawable/launch_background.xml"
  const LaunchBackgroundV21 := ResDir + "drawable-v21/launch_background.xml"
  const GradleWrapper := AndroidDir + "gradle/wrapper/gradle-wrapper.properties"

  /** The Kotlin entry point, under the package directory of the slug. */
  function MainActivityPath(slug: string): string {
    KotlinDir + slug + "/MainActivity.kt"
  }
}
