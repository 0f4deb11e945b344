TestResult.DisplayName,TestResult.Outcome,TestResult.Duration,TestResult.ResourceCount,RandomSeed
PortLoop.InvokeAllRecords (correctness),Passed,00:00:00.7149508,1436905,0
PortLoop.InvokeAllFirstFault (correctness),Passed,00:00:00.2338407,908476,0
PortLoop.InvokeAll (well-formedness),Passed,00:00:00.1404899,64264,0
PortLoop.InvokeAllAppend (correctness),Passed,00:00:00.1334240,104970,0
PortLoop.InvokeAllFaultExits (correctness),Passed,00:00:00.0627194,97079,0
PortLoop.InvokeAllGrows (correctness),Passed,00:00:00.0516731,82205,0
PortLoop.InvokeAllFirstFault (well-formedness),Passed,00:00:00.0444644,61944,0
